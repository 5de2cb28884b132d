/**
 * Small value types and sequence helpers shared by the audio pipeline and the
 * two front ends: optional and fallible values, flattening, fixed-stride
 * slicing (used both for WAV chunks and for encoder blocks), decimal
 * formatting of counters and the whitespace trimming of String.prototype.trim.
 */
module Common {

  datatype Option<T> = None | Some(value: T)

  /** A value or the message of the error that was thrown instead. */
  datatype Result<T> = Success(value: T) | Failure(message: string)

  function Min(a: int, b: int): int { if a <= b then a else b }

  /** Concatenation of a sequence of sequences, in order. */
  function Flatten<T>(ss: seq<seq<T>>): seq<T>
  {
    if ss == [] then [] else ss[0] + Flatten(ss[1..])
  }

  lemma {:induction false} FlattenAppend<T>(ss: seq<seq<T>>, x: seq<T>)
    ensures Flatten(ss + [x]) == Flatten(ss) + x
  {
    if ss == [] {
      assert [x][1..] == [];
    } else {
      assert (ss + [x])[1..] == ss[1..] + [x];
      FlattenAppend(ss[1..], x);
    }
  }

  lemma {:induction false} FlattenConcat<T>(a: seq<seq<T>>, b: seq<seq<T>>)
    ensures Flatten(a + b) == Flatten(a) + Flatten(b)
  {
    if a == [] {
      assert a + b == b;
    } else {
      assert (a + b)[1..] == a[1..] + b;
      FlattenConcat(a[1..], b);
    }
  }

  /**
   * The consecutive runs of at most k elements that a loop
   * `for (i = 0; i < s.length; i += k) s.slice(i, i + k)` produces.
   */
  function Slices<T>(s: seq<T>, k: nat): seq<seq<T>>
    requires k > 0
    decreases |s|
  {
    if |s| == 0 then []
    else if |s| <= k then [s]
    else [s[..k]] + Slices(s[k..], k)
  }

  /** Put back together, the slices are the input. */
  lemma {:induction false} SlicesFlatten<T>(s: seq<T>, k: nat)
    requires k > 0
    ensures Flatten(Slices(s, k)) == s
    decreases |s|
  {
    if |s| == 0 {
    } else if |s| <= k {
      assert Flatten([s]) == s + Flatten([s][1..]);
    } else {
      SlicesFlatten(s[k..], k);
      assert ([s[..k]] + Slices(s[k..], k))[1..] == Slices(s[k..], k);
      assert s[..k] + s[k..] == s;
    }
  }

  /** One step of the slicing loop: the slices from i on are s[i..i+k] and then the slices from i + k on. */
  lemma SlicesStep<T>(s: seq<T>, i: nat, k: nat)
    requires k > 0 && i < |s|
    ensures Slices(s[i..], k) == [s[i..Min(i + k, |s|)]] + Slices(s[Min(i + k, |s|)..], k)
  {
    var rest := s[i..];
    if |rest| > k {
      assert rest[..k] == s[i..i + k] && rest[k..] == s[i + k..];
    } else {
      assert rest == s[i..|s|] && s[|s|..] == [];
    }
  }

  /** The slicing loop's invariant, carried from i to i + k. */
  lemma SlicesLoopStep<T>(s: seq<T>, i: nat, done: seq<seq<T>>, k: nat)
    requires k > 0 && i < |s|
    requires Slices(s, k) == done + Slices(s[i..], k)
    ensures Slices(s, k) == (done + [s[i..Min(i + k, |s|)]]) + Slices(s[Min(i + k, |s|)..], k)
  {
    SlicesStep(s, i, k);
  }

  /**
   * No input gives no slices; otherwise there are ceil(|s| / k) of them (the
   * count c with (c - 1) * k < |s| <= c * k), all but the last hold exactly k
   * elements and the last holds 1 to k.
   */
  lemma {:induction false} SlicesShape<T>(s: seq<T>, k: nat)
    requires k > 0
    ensures var r := Slices(s, k);
      && (|r| == 0 <==> |s| == 0)
      && (|s| > 0 ==> (|r| - 1) * k < |s| <= |r| * k)
      && (forall j :: 0 <= j < |r| - 1 ==> |r[j]| == k)
      && (|r| > 0 ==> 1 <= |r[|r| - 1]| <= k)
    decreases |s|
  {
    var r := Slices(s, k);
    if |s| == 0 {
    } else if |s| <= k {
    } else {
      SlicesShape(s[k..], k);
      var t := Slices(s[k..], k);
      assert r == [s[..k]] + t;
      assert (|r| - 1) * k == (|t| - 1) * k + k;
      assert |r| * k == |t| * k + k;
      forall j | 0 <= j < |r| - 1 ensures |r[j]| == k {
        if j > 0 { assert r[j] == t[j - 1]; }
      }
    }
  }

  /** The first index below n at which `stops` holds, or n: where a loop over n items that can stop early ends. */
  function FirstStop(stops: nat -> bool, n: nat): (k: nat)
    ensures k <= n
  {
    if n == 0 then 0
    else if FirstStop(stops, n - 1) < n - 1 then FirstStop(stops, n - 1)
    else if stops(n - 1) then n - 1
    else n
  }

  /** Every index before the first stop passes, and the loop stops at it when it is not past the end. */
  lemma {:induction false} FirstStopSpec(stops: nat -> bool, n: nat)
    ensures var k := FirstStop(stops, n);
      && (forall j :: 0 <= j < k ==> !stops(j))
      && (k < n ==> stops(k))
  {
    if n > 0 {
      FirstStopSpec(stops, n - 1);
    }
  }

  /** Once the first i items pass and item i stops (or i is the end), the first stop over n items is i. */
  lemma {:induction false} FirstStopAt(stops: nat -> bool, n: nat, i: nat)
    requires i <= n
    requires FirstStop(stops, i) == i
    requires i < n ==> stops(i)
    ensures FirstStop(stops, n) == i
    decreases n
  {
    if n > i {
      FirstStopAt(stops, n - 1, i);
    }
  }

  /** The decimal digits of n, as JavaScript prints a non-negative integer. */
  function NatToString(n: nat): (r: string)
    ensures |r| >= 1
    ensures forall i :: 0 <= i < |r| ==> '0' <= r[i] <= '9'
    ensures |r| > 1 ==> r[0] != '0'
  {
    if n < 10 then [Digit(n)] else NatToString(n / 10) + [Digit(n % 10)]
  }

  function Digit(d: nat): (c: char)
    requires d < 10
  {
    ['0', '1', '2', '3', '4', '5', '6', '7', '8', '9'][d]
  }

  /** Appending in two steps is appending both parts in order. */
  lemma AppendAssoc<T>(a: seq<T>, b: seq<T>, c: seq<T>)
    ensures a + b + c == a + (b + c)
  {
  }

  /** The values f picks out of s, in order: the elements for which it gives Some. */
  function Collect<T, U>(s: seq<T>, f: T -> Option<U>): seq<U>
  {
    if s == [] then []
    else if f(s[|s| - 1]).Some? then Collect(s[..|s| - 1], f) + [f(s[|s| - 1]).value]
    else Collect(s[..|s| - 1], f)
  }

  /** Collecting from two parts is collecting from each, in order. */
  lemma {:induction false} CollectConcat<T, U>(a: seq<T>, b: seq<T>, f: T -> Option<U>)
    ensures Collect(a + b, f) == Collect(a, f) + Collect(b, f)
    decreases |b|
  {
    if b == [] {
      assert a + b == a;
    } else {
      var c := a + b;
      assert c[..|c| - 1] == a + b[..|b| - 1];
      assert c[|c| - 1] == b[|b| - 1];
      CollectConcat(a, b[..|b| - 1], f);
    }
  }

  /** A single element gives its picked value, if any. */
  lemma CollectOne<T, U>(x: T, f: T -> Option<U>)
    ensures Collect([x], f) == if f(x).Some? then [f(x).value] else []
  {
    assert [x][..0] == [];
  }

  /** Nothing is picked from elements f gives None for. */
  lemma {:induction false} CollectNone<T, U>(s: seq<T>, f: T -> Option<U>)
    requires forall i :: 0 <= i < |s| ==> f(s[i]).None?
    ensures Collect(s, f) == []
    decreases |s|
  {
    if s != [] {
      CollectNone(s[..|s| - 1], f);
    }
  }

  /** The numbers 1 to k, in order. */
  function OneTo(k: nat): (r: seq<nat>)
    ensures |r| == k
    ensures forall j :: 0 <= j < k ==> r[j] == j + 1
  {
    if k == 0 then [] else OneTo(k - 1) + [k]
  }

  /**
   * The characters String.prototype.trim removes: ECMAScript WhiteSpace
   * (TAB, VT, FF, ZWNBSP and the space separators of category Zs) and
   * LineTerminator (LF, CR, LS, PS).
   */
  predicate IsJsSpace(c: char)
  {
    || c == '\t' || c == '\n' || c == '\U{000B}' || c == '\U{000C}' || c == '\r'
    || c == ' ' || c == '\U{00A0}' || c == '\U{1680}'
    || ('\U{2000}' <= c <= '\U{200A}')
    || c == '\U{2028}' || c == '\U{2029}' || c == '\U{202F}' || c == '\U{205F}'
    || c == '\U{3000}' || c == '\U{FEFF}'
  }

  predicate AllSpace(s: string)
  {
    forall i :: 0 <= i < |s| ==> IsJsSpace(s[i])
  }

  /** Drops the leading white space. */
  function TrimStart(s: string): (r: string)
    ensures |r| <= |s|
  {
    if s != [] && IsJsSpace(s[0]) then TrimStart(s[1..]) else s
  }

  /** What TrimStart leaves is a suffix of s after white space only, and does not start with white space. */
  lemma {:induction false} TrimStartSpec(s: string)
    ensures var r := TrimStart(s);
      && r == s[|s| - |r|..] && AllSpace(s[..|s| - |r|])
      && (r == [] || !IsJsSpace(r[0]))
  {
    if s != [] && IsJsSpace(s[0]) {
      var t := s[1..];
      TrimStartSpec(t);
      var r := TrimStart(t);
      assert t[|t| - |r|..] == s[|s| - |r|..];
      var dropped := s[..|s| - |r|];
      forall i | 0 <= i < |dropped| ensures IsJsSpace(dropped[i]) {
        if i > 0 {
          assert dropped[i] == t[..|t| - |r|][i - 1];
        }
      }
    }
  }

  /** Drops the trailing white space. */
  function TrimEnd(s: string): (r: string)
    ensures |r| <= |s|
  {
    if s != [] && IsJsSpace(s[|s| - 1]) then TrimEnd(s[..|s| - 1]) else s
  }

  /** What TrimEnd leaves is a prefix of s before white space only, and does not end with white space. */
  lemma {:induction false} TrimEndSpec(s: string)
    ensures var r := TrimEnd(s);
      && r == s[..|r|] && AllSpace(s[|r|..])
      && (r == [] || !IsJsSpace(r[|r| - 1]))
  {
    if s != [] && IsJsSpace(s[|s| - 1]) {
      var t := s[..|s| - 1];
      TrimEndSpec(t);
      var r := TrimEnd(t);
      assert t[..|r|] == s[..|r|];
      forall i | 0 <= i < |s| - |r| ensures IsJsSpace(s[|r|..][i]) {
        if i < |t| - |r| {
          assert s[|r|..][i] == t[|r|..][i];
        }
      }
    }
  }

  /** String.prototype.trim: drops the white space at both ends. */
  function Trim(s: string): string
  {
    TrimEnd(TrimStart(s))
  }

  /**
   * s is the trimmed text with only white space around it, and the trimmed
   * text neither starts nor ends with white space.
   */
  lemma TrimSpec(s: string)
    ensures exists a, b :: s == a + Trim(s) + b && AllSpace(a) && AllSpace(b)
    ensures Trim(s) == [] || (!IsJsSpace(Trim(s)[0]) && !IsJsSpace(Trim(s)[|Trim(s)| - 1]))
  {
    TrimSurrounded(s);
    TrimEdges(s);
  }

  /** Only white space is dropped, from either end. */
  lemma TrimSurrounded(s: string)
    ensures var a, b := s[..|s| - |TrimStart(s)|], TrimStart(s)[|Trim(s)|..];
      s == a + Trim(s) + b && AllSpace(a) && AllSpace(b)
  {
    var t := TrimStart(s);
    var r := TrimEnd(t);
    TrimStartSpec(s);
    TrimEndSpec(t);
    TrimParts(s, t, r);
  }

  /** The trimmed text neither starts nor ends with white space. */
  lemma TrimEdges(s: string)
    ensures Trim(s) == [] || (!IsJsSpace(Trim(s)[0]) && !IsJsSpace(Trim(s)[|Trim(s)| - 1]))
  {
    var t := TrimStart(s);
    TrimStartSpec(s);
    TrimEndSpec(t);
    if Trim(s) != [] {
      assert Trim(s)[0] == t[0];
    }
  }

  lemma TrimParts(s: string, t: string, r: string)
    requires |t| <= |s| && t == s[|s| - |t|..]
    requires |r| <= |t| && r == t[..|r|]
    ensures s == s[..|s| - |t|] + r + t[|r|..]
  {
    assert s == s[..|s| - |t|] + t;
    assert t == r + t[|r|..];
  }
}
