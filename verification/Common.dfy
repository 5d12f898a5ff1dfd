/** Small vocabulary shared by the other modules. */
module Common {

  datatype Option<+T> = None | Some(value: T)

  datatype Result<+T, +E> = Ok(value: T) | Err(error: E)

  /** Some element of a set, for iterations whose order does not matter. */
  method Pick<T(==)>(s: set<T>) returns (x: T)
    requires s != {}
    ensures x in s
  {
    x :| x in s;
  }

  ghost predicate NoDuplicates<T>(s: seq<T>) {
    forall i, j :: 0 <= i < j < |s| ==> s[i] != s[j]
  }

  lemma Associative<X>(a: seq<X>, b: seq<X>, c: seq<X>)
    ensures (a + b) + c == a + (b + c)
  {
  }

  /** The sequence without any occurrence of the given element. */
  function Dropped<T(==)>(s: seq<T>, x: T): seq<T> {
    if |s| == 0 then [] else (if s[0] == x then [] else [s[0]]) + Dropped(s[1..], x)
  }

  method Drop<T(==)>(s: seq<T>, x: T) returns (kept: seq<T>)
    ensures kept == Dropped(s, x)
  {
    kept := [];
    for i := 0 to |s|
      invariant kept + Dropped(s[i..], x) == Dropped(s, x)
    {
      assert s[i..][0] == s[i] && s[i..][1..] == s[i + 1..];
      Associative(kept, [s[i]], Dropped(s[i + 1..], x));
      if s[i] != x {
        kept := kept + [s[i]];
      } else {
        assert [] + Dropped(s[i + 1..], x) == Dropped(s[i + 1..], x);
      }
    }
  }
}
