/** The few Python `str` and sequence operations the loader and the model base use. */
module Text {
  import opened Wrappers

  /** `s.index(x)` on a tuple: the first position of `x`, or None where Python raises ValueError. */
  function IndexOf<T(==)>(s: seq<T>, x: T): (r: Option<nat>)
    ensures r.None? <==> x !in s
    ensures r.Some? ==> r.value < |s| && s[r.value] == x && forall j :: 0 <= j < r.value ==> s[j] != x
  {
    if s == [] then None
    else if s[0] == x then Some(0)
    else match IndexOf(s[1..], x)
      case None => None
      case Some(i) => Some(i + 1)
  }

  /** `s.rfind(c)`: the last position of `c`, or None where Python returns -1. */
  function LastIndexOf(s: string, c: char): (r: Option<nat>)
    ensures r.None? <==> c !in s
    ensures r.Some? ==> r.value < |s| && s[r.value] == c && forall j :: r.value < j < |s| ==> s[j] != c
  {
    if s == [] then None
    else if s[|s| - 1] == c then Some(|s| - 1)
    else LastIndexOf(s[..|s| - 1], c)
  }

  /** `[x for x in s if not drop(x)]`. */
  function Without<T>(s: seq<T>, drop: T -> bool): (r: seq<T>)
    ensures |r| <= |s|
  {
    if s == [] then [] else (if drop(s[0]) then [] else [s[0]]) + Without(s[1..], drop)
  }

  /** The comprehension keeps exactly the elements `drop` rejects. */
  lemma {:induction false} WithoutMembers<T>(s: seq<T>, drop: T -> bool)
    ensures forall i :: 0 <= i < |Without(s, drop)| ==> Without(s, drop)[i] in s && !drop(Without(s, drop)[i])
    ensures forall i :: 0 <= i < |s| && !drop(s[i]) ==> s[i] in Without(s, drop)
  {
    if s != [] {
      WithoutMembers(s[1..], drop);
      forall i | 0 <= i < |s| && !drop(s[i]) ensures s[i] in Without(s, drop) {
        if i > 0 {
          assert s[i] == s[1..][i - 1];
        }
      }
    }
  }

  /** The comprehension keeps order: filtering a concatenation concatenates the filtered halves. */
  lemma {:induction false} WithoutAppend<T>(a: seq<T>, b: seq<T>, drop: T -> bool)
    ensures Without(a + b, drop) == Without(a, drop) + Without(b, drop)
  {
    if a == [] {
      assert a + b == b;
    } else {
      assert (a + b)[1..] == a[1..] + b;
      WithoutAppend(a[1..], b, drop);
      var head := if drop(a[0]) then [] else [a[0]];
      assert head + (Without(a[1..], drop) + Without(b, drop)) == (head + Without(a[1..], drop)) + Without(b, drop);
    }
  }

  /** `sep.join(parts)`. */
  function Join(parts: seq<string>, sep: string): (r: string)
    ensures parts != [] ==> parts[0] <= r
  {
    if parts == [] then ""
    else if |parts| == 1 then parts[0]
    else parts[0] + sep + Join(parts[1..], sep)
  }

  /** With two parts or more, the joined string starts with the first part and a separator. */
  lemma JoinPrefix(parts: seq<string>, sep: string)
    requires |parts| > 1
    ensures parts[0] + sep <= Join(parts, sep)
  {
    var rest := Join(parts[1..], sep);
    assert Join(parts, sep) == (parts[0] + sep) + rest;
  }

  /** A suffix glued to the last part comes out at the end of the joined string. */
  lemma {:induction false} JoinSuffix(parts: seq<string>, last: string, suffix: string, sep: string)
    ensures Join(parts + [last + suffix], sep) == Join(parts + [last], sep) + suffix
  {
    if parts != [] {
      assert (parts + [last + suffix])[1..] == parts[1..] + [last + suffix];
      assert (parts + [last])[1..] == parts[1..] + [last];
      JoinSuffix(parts[1..], last, suffix, sep);
    }
  }

  predicate IsUpperAscii(c: char) { 'A' <= c <= 'Z' }

  /** `c.lower()` restricted to ASCII: upper-case letters move down by 32 code points. */
  function LowerChar(c: char): (r: char)
    ensures !IsUpperAscii(r)
    ensures IsUpperAscii(c) ==> r as int == c as int + 32
    ensures !IsUpperAscii(c) ==> r == c
  {
    if IsUpperAscii(c) then (c as int + 32) as char else c
  }

  /** `s.lower()` restricted to ASCII. */
  function Lower(s: string): (r: string)
    ensures |r| == |s|
    ensures forall i :: 0 <= i < |s| ==> r[i] == LowerChar(s[i])
  {
    if s == [] then [] else [LowerChar(s[0])] + Lower(s[1..])
  }
}
