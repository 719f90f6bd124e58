/** Failure-compatible wrappers used throughout the model: Python's `None`
    becomes `Option.None`, and a raised exception becomes `Result.Failure`
    carrying the exception's message. */
module Wrappers {

  datatype Option<+T> = None | Some(value: T) {
    /** Python's `x or default` for an optional value. */
    function GetOr(default: T): T {
      match this
      case Some(v) => v
      case None => default
    }
  }

  datatype Result<+R, +E> = Success(value: R) | Failure(error: E)

  /** The first present value of a precedence list: the sources are
      consulted in order and the first one that yields a value wins. */
  function FirstSome<T(==)>(sources: seq<Option<T>>): (r: Option<T>)
    ensures r.None? <==> forall i :: 0 <= i < |sources| ==> sources[i].None?
    ensures r.Some? ==> exists i :: 0 <= i < |sources| && sources[i] == r
                                    && forall k :: 0 <= k < i ==> sources[k].None?
  {
    if |sources| == 0 then None
    else if sources[0].Some? then sources[0]
    else
      var rest := FirstSome(sources[1..]);
      assert forall i :: 1 <= i < |sources| ==> sources[i] == sources[1..][i - 1];
      if rest.Some? then
        var i :| 0 <= i < |sources[1..]| && sources[1..][i] == rest
                 && forall k :: 0 <= k < i ==> sources[1..][k].None?;
        assert sources[i + 1] == rest;
        rest
      else rest
  }

  /** The precedence chain read off for short literal lists. */
  lemma FirstSomeOfTwo<T>(a: Option<T>, b: Option<T>)
    ensures FirstSome([a, b]) == if a.Some? then a else b
  {
    assert [a, b][1..] == [b];
    assert [b][1..] == [];
  }

  lemma FirstSomeOfThree<T>(a: Option<T>, b: Option<T>, c: Option<T>)
    ensures FirstSome([a, b, c]) == if a.Some? then a else if b.Some? then b else c
  {
    assert [a, b, c][1..] == [b, c];
    FirstSomeOfTwo(b, c);
  }

  lemma FirstSomeOfFour<T>(a: Option<T>, b: Option<T>, c: Option<T>, d: Option<T>)
    ensures FirstSome([a, b, c, d]) == if a.Some? then a else if b.Some? then b else if c.Some? then c else d
  {
    assert [a, b, c, d][1..] == [b, c, d];
    FirstSomeOfThree(b, c, d);
  }
}
