/**
 * Building blocks shared by every component of the bot: optional values and
 * results, the Gemini API's content record, JavaScript's `Array.prototype.slice`
 * with a negative start, the push-then-splice bounded append used by both
 * history buffers, and the 50-character preview truncation.
 */
module Common {

  datatype Option<+T> = None | Some(value: T) {
    function GetOr(default: T): T {
      match this
      case Some(v) => v
      case None => default
    }
  }

  /** An operation that either yields a value or fails with an error message. */
  datatype Result<+T> = Ok(value: T) | Err(error: string)

  /** The two roles the Gemini API accepts. */
  const USER: string := "user"
  const MODEL: string := "model"

  /**
   * One entry of a Gemini API `contents` array, `{ role, parts: [{ text }] }`.
   * Every producer in the bot builds exactly one text part, so the part list is
   * represented by its single text.
   */
  datatype Content = Content(role: string, text: string)

  function Min(a: int, b: int): int {
    if a <= b then a else b
  }

  function NonNeg(n: int): nat {
    if n < 0 then 0 else n
  }

  ghost predicate NoDuplicates<T>(s: seq<T>) {
    forall i, j :: 0 <= i < j < |s| ==> s[i] != s[j]
  }

  /** Reference meaning of "the last n elements, in their original order". */
  function Last<T>(s: seq<T>, n: nat): (r: seq<T>)
    ensures |r| == Min(n, |s|)
  {
    s[|s| - Min(n, |s|)..]
  }

  /** `s.slice(start)`: a negative start counts from the end, both ends clamp. */
  function SliceFrom<T>(s: seq<T>, start: int): seq<T> {
    var k := if start < 0 then NonNeg(|s| + start) else Min(start, |s|);
    s[k..]
  }

  /**
   * `s.slice(-limit)`, the "recent entries" view used by every history reader.
   * For limit >= 1 it is the last min(limit, |s|) entries; `slice(-0)` is the
   * whole array; a negative limit drops entries from the front.
   */
  function Recent<T>(s: seq<T>, limit: int): (r: seq<T>)
    ensures limit >= 1 ==> r == Last(s, limit)
    ensures limit == 0 ==> r == s
    ensures limit < 0 ==> r == s[Min(-limit, |s|)..]
  {
    SliceFrom(s, -limit)
  }

  /**
   * What `if (a.length > max) a.splice(0, a.length - max)` leaves: the array
   * cut from the front. A maximum of zero or less removes everything, since
   * splice clamps its delete count to the length.
   */
  function TrimFront<T>(s: seq<T>, max: int): (r: seq<T>)
    ensures r == Last(s, NonNeg(max))
  {
    if |s| > max then (if max <= 0 then [] else s[|s| - max..]) else s
  }

  /** `push(x)` followed by the front trim: one append to a bounded buffer. */
  function BoundedAppend<T>(s: seq<T>, x: T, max: int): (r: seq<T>)
    ensures r == Last(s + [x], NonNeg(max))
    ensures |r| == Min(|s| + 1, NonNeg(max))
    ensures max >= 1 ==> r[|r| - 1] == x
  {
    TrimFront(s + [x], max)
  }

  /** Appending xs one element at a time. */
  function AppendAll<T>(s: seq<T>, xs: seq<T>, max: int): seq<T>
    decreases |xs|
  {
    if xs == [] then s else AppendAll(BoundedAppend(s, xs[0], max), xs[1..], max)
  }

  /** Taking the last m twice, with more appended in between, is taking it once. */
  lemma LastOfLast<T>(a: seq<T>, b: seq<T>, m: nat)
    ensures Last(Last(a, m) + b, m) == Last(a + b, m)
  {
    var la := Last(a, m);
    if |b| >= m {
      assert Last(la + b, m) == b[|b| - m..];
      assert (a + b)[|a + b| - m..] == b[|b| - m..];
    } else {
      var k := m - |b|;
      assert |la| == Min(m, |a|);
      if |a| <= m {
        assert la == a;
      } else {
        assert la == a[|a| - m..];
        assert Last(la + b, m) == (la + b)[|la + b| - m..];
        assert (la + b)[|la + b| - m..] == a[|a| - k..] + b;
        assert (a + b)[|a + b| - m..] == a[|a| - k..] + b;
      }
    }
  }

  /**
   * Any run of appends to a buffer that starts within capacity leaves exactly
   * the most recent min(total, capacity) entries, oldest first. With s == []
   * this is "N appends to a capacity-C buffer keep the last min(N, C)".
   */
  lemma {:induction false} AppendAllKeepsMostRecent<T>(s: seq<T>, xs: seq<T>, max: int)
    requires |s| <= NonNeg(max)
    ensures AppendAll(s, xs, max) == Last(s + xs, NonNeg(max))
    decreases |xs|
  {
    var m := NonNeg(max);
    if xs == [] {
      assert s + xs == s;
    } else {
      var s' := BoundedAppend(s, xs[0], max);
      calc {
        AppendAll(s, xs, max);
        AppendAll(s', xs[1..], max);
        { AppendAllKeepsMostRecent(s', xs[1..], max); }
        Last(s' + xs[1..], m);
        { LastOfLast(s + [xs[0]], xs[1..], m); }
        Last(s + [xs[0]] + xs[1..], m);
        { assert s + [xs[0]] + xs[1..] == s + xs; }
        Last(s + xs, m);
      }
    }
  }

  /** Width of every text preview the bot shows. */
  const PREVIEW_LENGTH: nat := 50

  /** `text.substring(0, n) + (text.length > n ? '...' : '')`. */
  function Preview(text: string, n: nat): (r: string)
    ensures |text| <= n ==> r == text
    ensures |text| > n ==> |r| == n + 3 && r[..n] == text[..n] && r[n..] == "..."
  {
    text[..Min(n, |text|)] + (if |text| > n then "..." else "")
  }

  /** `items.join(sep)`. */
  function Join(items: seq<string>, sep: string): string
    decreases |items|
  {
    if |items| == 0 then ""
    else if |items| == 1 then items[0]
    else items[0] + sep + Join(items[1..], sep)
  }
}
