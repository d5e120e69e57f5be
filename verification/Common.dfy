/** Optional values, bytes, and sequences without repetition. */
module Common {

  datatype Option<+T> = None | Some(value: T)

  type Byte = b: int | 0 <= b < 256

  ghost predicate Once<T>(s: seq<T>) {
    forall i, j | 0 <= i < j < |s| :: s[i] != s[j]
  }

  lemma OnceTail<T>(s: seq<T>)
    requires Once(s) && s != []
    ensures Once(s[1..]) && forall x :: x in s[1..] <==> x in s && x != s[0]
  {
    assert s == [s[0]] + s[1..];
  }

  lemma OnceCons<T>(x: T, s: seq<T>)
    requires Once(s) && x !in s
    ensures Once([x] + s)
  {
  }

  lemma OnceAppend<T>(s: seq<T>, x: T)
    requires Once(s) && x !in s
    ensures Once(s + [x])
  {
  }

  lemma OncePlus<T>(s: seq<T>, t: seq<T>)
    ensures Once(s + t) <==> Once(s) && Once(t) && forall x | x in t :: x !in s
  {
    if Once(s + t) {
      assert forall i | 0 <= i < |s| :: (s + t)[i] == s[i];
      assert forall j | 0 <= j < |t| :: (s + t)[|s| + j] == t[j];
      forall i, j | 0 <= i < j < |t| ensures t[i] != t[j] {
        assert (s + t)[|s| + i] != (s + t)[|s| + j];
      }
      forall x | x in t ensures x !in s {
        var j :| 0 <= j < |t| && t[j] == x;
        assert (s + t)[|s| + j] == x;
      }
    }
    if Once(s) && Once(t) && forall x | x in t :: x !in s {
      forall i, j | 0 <= i < |s| && 0 <= j < |t| ensures s[i] != t[j] {
        assert t[j] in t;
      }
    }
  }

  /** The sequence without the first `x`. */
  function Minus<T(==)>(s: seq<T>, x: T): seq<T> {
    if s == [] then [] else if s[0] == x then s[1..] else [s[0]] + Minus(s[1..], x)
  }
}
