/** The public ranking: the classes and their scores, fetched once, shown
    largest score first with a crown on the first. */
module Ranking {
  import opened Base
  import Sorting

  /** A class of the public ranking. */
  datatype TurmaPontuacao = TurmaPontuacao(id: int, nome: string, descricao: string, pontuacao: int)

  function Score(t: TurmaPontuacao): int { t.pontuacao }

  const LoadErrorText := "Erro ao carregar o ranking. Por favor, tente novamente mais tarde."

  /** The crowned entry: the first of the list, if any. */
  function Crowned(turmas: seq<TurmaPontuacao>): (r: Option<TurmaPontuacao>)
    ensures r.Some? <==> turmas != []
    ensures r.Some? ==> r.value in turmas
  {
    if turmas == [] then None else Some(turmas[0])
  }

  /** In a list ordered largest score first, the crowned class has the
      highest score of all. */
  lemma CrownHoldsMaximum(turmas: seq<TurmaPontuacao>)
    requires Sorting.SortedDescending(turmas, Score)
    ensures forall t :: t in turmas ==> Score(Crowned(turmas).value) >= Score(t)
  {
    forall t | t in turmas ensures Score(turmas[0]) >= Score(t) {
      var j :| 0 <= j < |turmas| && turmas[j] == t;
      if j > 0 {
        assert Score(turmas[0]) >= Score(turmas[j]);
      }
    }
  }

  class RankingState {
    var turmas: seq<TurmaPontuacao>
    var isLoading: bool
    var errorMessage: Option<string>

    constructor()
      ensures turmas == [] && !isLoading && errorMessage == None
    {
      turmas := [];
      isLoading := false;
      errorMessage := None;
    }

    /** The list is drawn once loading is over and no error is shown. */
    function ListShown(): (r: bool)
      reads this
      ensures r ==> !isLoading
      ensures errorMessage == Some(LoadErrorText) ==> !r
      ensures !isLoading && errorMessage.None? ==> r
    {
      !isLoading && (errorMessage.None? || errorMessage.value == "")
    }

    /** `getTurmasPontuacao`: a fetched list is sorted in place by
        `b.pontuacao - a.pontuacao` and stored; a failed request (or an
        answer that is not `ok`) sets the fixed error text and keeps the
        list. Loading is over either way. */
    method GetTurmasPontuacao(outcome: PostOutcome<seq<TurmaPontuacao>>)
      modifies this
      ensures !isLoading
      ensures outcome.Answered? ==> Sorting.SortedDescending(turmas, Score)
      ensures outcome.Answered? ==> multiset(turmas) == multiset(outcome.response) && |turmas| == |outcome.response|
      ensures outcome.Answered? ==> errorMessage == old(errorMessage)
      ensures outcome.Threw? ==> errorMessage == Some(LoadErrorText) && turmas == old(turmas)
    {
      isLoading := true;
      match outcome {
        case Answered(data) =>
          var a := new TurmaPontuacao[|data|](i requires 0 <= i < |data| => data[i]);
          assert a[..] == data;
          Sorting.SortDescending(a, Score);
          turmas := a[..];
          assert |multiset(turmas)| == |multiset(data)|;
        case Threw(_) =>
          errorMessage := Some(LoadErrorText);
      }
      isLoading := false;
    }
  }

  /** After a successful load the crown goes to a class with the highest
      score among those fetched. */
  lemma CrownAfterLoad(fetched: seq<TurmaPontuacao>, stored: seq<TurmaPontuacao>)
    requires Sorting.SortedDescending(stored, Score) && multiset(stored) == multiset(fetched)
    requires fetched != []
    ensures Crowned(stored).Some? && Crowned(stored).value in fetched
    ensures forall t :: t in fetched ==> Score(Crowned(stored).value) >= Score(t)
  {
    assert fetched[0] in multiset(stored);
    assert stored[0] in multiset(fetched);
    CrownHoldsMaximum(stored);
    forall t | t in fetched ensures t in stored {
      assert t in multiset(stored);
    }
  }
}
