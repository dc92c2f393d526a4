/** Small value types shared by every module of the dashboard model. */
module Base {

  /** A value that may be missing: JavaScript's `undefined` or `null`. */
  datatype Option<+T> = None | Some(value: T)

  /** A JavaScript number as far as this model needs one: an integer, or NaN
      (what `undefined + n` evaluates to). */
  datatype JsNum = Num(n: int) | NaN {
    /** `this + k` with JavaScript's NaN propagation. */
    function Plus(k: int): (r: JsNum)
      ensures r.NaN? <==> NaN?
      ensures Num? ==> r == Num(n + k)
    {
      if NaN? then NaN else Num(n + k)
    }
  }

  /** `a - b` with JavaScript's NaN propagation. */
  function Minus(a: JsNum, b: JsNum): (r: JsNum)
    ensures r.NaN? <==> a.NaN? || b.NaN?
    ensures r.Num? ==> r.n == a.n - b.n
  {
    if a.NaN? || b.NaN? then NaN else Num(a.n - b.n)
  }

  /** Outcome of a POST through the API client: the server answered, or the
      call threw with the given reason. */
  datatype PostOutcome<+R> = Answered(response: R) | Threw(reason: string)

  /** The pair of banners a page shows: `{ error, success }`. Every
      `setMessages({...})` call replaces the whole record. */
  datatype Messages = Messages(error: Option<string>, success: Option<string>)

  const NoMessages := Messages(None, None)

  function ErrorOnly(text: string): Messages { Messages(Some(text), None) }

  function SuccessOnly(text: string): Messages { Messages(None, Some(text)) }

  const MissingTokenText := "Token de autenticação não encontrado"

  /** A form field's value: a number the code put there, the text an
      `<input>` or `<select>` hands over (`e.target.value` is always a
      string), or `undefined`. */
  datatype FieldValue = NumberValue(n: int) | TextValue(s: string) | Missing

  /** `form[name]`: `undefined` for a field the form lacks. */
  function Field(form: map<string, FieldValue>, name: string): (r: FieldValue)
    ensures name !in form ==> r == Missing
    ensures name in form ==> r == form[name]
  {
    if name in form then form[name] else Missing
  }

  /** `xs.filter(keep)`: the elements that pass, in input order. */
  function Filter<T>(xs: seq<T>, keep: T -> bool): (r: seq<T>)
    ensures |r| <= |xs|
    ensures forall x :: x in r ==> x in xs && keep(x)
    ensures forall x :: x in xs && keep(x) ==> x in r
  {
    if xs == [] then []
    else
      var kept := Filter(xs[..|xs| - 1], keep);
      var last := xs[|xs| - 1];
      assert forall x :: x in xs ==> x in xs[..|xs| - 1] || x == last;
      if keep(last) then kept + [last] else kept
  }

  lemma FilterSnoc<T>(xs: seq<T>, x: T, keep: T -> bool)
    ensures Filter(xs + [x], keep) == if keep(x) then Filter(xs, keep) + [x] else Filter(xs, keep)
  {
    assert (xs + [x])[..|xs|] == xs;
  }

  /** One element is kept exactly when it passes. */
  lemma FilterOne<T>(x: T, keep: T -> bool)
    ensures Filter([x], keep) == if keep(x) then [x] else []
  {
    FilterSnoc([], x, keep);
    assert [] + [x] == [x];
  }

  /** Filtering a concatenation filters each part and keeps them in order;
      with `FilterOne` this pins the filter down completely. */
  lemma {:induction false} FilterAppend<T>(a: seq<T>, b: seq<T>, keep: T -> bool)
    ensures Filter(a + b, keep) == Filter(a, keep) + Filter(b, keep)
  {
    if b == [] {
      assert a + b == a;
    } else {
      var init, last := b[..|b| - 1], b[|b| - 1];
      FilterAppend(a, init, keep);
      assert (a + b)[..|a + b| - 1] == a + init;
      assert (a + b)[|a + b| - 1] == last;
      var fa, fi := Filter(a, keep), Filter(init, keep);
      if keep(last) {
        assert Filter(a + b, keep) == (fa + fi) + [last];
        assert Filter(b, keep) == fi + [last];
        assert (fa + fi) + [last] == fa + (fi + [last]);
      } else {
        assert Filter(a + b, keep) == fa + fi;
        assert Filter(b, keep) == fi;
      }
    }
  }

  /** A passing element is kept as often as it occurs, any other never. */
  lemma {:induction false} FilterCounts<T>(xs: seq<T>, keep: T -> bool)
    ensures forall x :: multiset(Filter(xs, keep))[x] == if keep(x) then multiset(xs)[x] else 0
  {
    if xs != [] {
      var init, last := xs[..|xs| - 1], xs[|xs| - 1];
      assert xs == init + [last];
      FilterCounts(init, keep);
      FilterSnoc(init, last, keep);
    }
  }

  /** When every element passes, the filter keeps the list unchanged. */
  lemma {:induction false} FilterKeepsAll<T>(xs: seq<T>, keep: T -> bool)
    requires forall x :: x in xs ==> keep(x)
    ensures Filter(xs, keep) == xs
  {
    if xs != [] {
      var init, last := xs[..|xs| - 1], xs[|xs| - 1];
      assert xs == init + [last];
      FilterKeepsAll(init, keep);
    }
  }
}
