/** The JavaScript built-ins that MindEaze relies on — `Array.prototype.filter`,
    `findIndex`, `includes`, `String.prototype.trim`, `toLowerCase`, `includes`
    and decimal number formatting — stated on Dafny values, with the facts the
    rest of the model uses about them. */
module Builtins {

  datatype Option<T> = None | Some(value: T)

  // ---------------------------------------------------------------------------
  // Arrays
  // ---------------------------------------------------------------------------

  /** `xs.filter(p)`: the elements satisfying `p`, in their original order. */
  function Filter<T>(xs: seq<T>, p: T -> bool): (r: seq<T>)
    ensures |r| <= |xs|
    ensures forall i :: 0 <= i < |r| ==> p(r[i])
    ensures |r| == |xs| <==> forall i :: 0 <= i < |xs| ==> p(xs[i])
  {
    if xs == [] then []
    else if p(xs[0]) then [xs[0]] + Filter(xs[1..], p)
    else
      var rest := Filter(xs[1..], p);
      assert !p(xs[0]);
      rest
  }

  /** The filter keeps only elements of its input. */
  lemma {:induction false} FilterSubset<T>(xs: seq<T>, p: T -> bool)
    ensures forall i :: 0 <= i < |Filter(xs, p)| ==> Filter(xs, p)[i] in xs
  {
    if xs != [] {
      FilterSubset(xs[1..], p);
      var rest := Filter(xs[1..], p);
      forall i | 0 <= i < |rest| ensures rest[i] in xs {
        assert rest[i] in xs[1..];
      }
    }
  }

  /** Every element satisfying `p` survives the filter. */
  lemma {:induction false} FilterKeeps<T>(xs: seq<T>, p: T -> bool)
    ensures forall i :: 0 <= i < |xs| && p(xs[i]) ==> xs[i] in Filter(xs, p)
  {
    if xs != [] {
      FilterKeeps(xs[1..], p);
      forall i | 0 <= i < |xs| && p(xs[i]) ensures xs[i] in Filter(xs, p) {
        if i > 0 {
          assert xs[i] == xs[1..][i - 1];
        }
      }
    }
  }

  /** Filtering a concatenation filters each part: the filter keeps the
      relative order of what it keeps. */
  lemma {:induction false} FilterAppend<T>(xs: seq<T>, ys: seq<T>, p: T -> bool)
    ensures Filter(xs + ys, p) == Filter(xs, p) + Filter(ys, p)
  {
    if xs == [] {
      assert xs + ys == ys;
    } else {
      assert (xs + ys)[1..] == xs[1..] + ys;
      FilterAppend(xs[1..], ys, p);
    }
  }

  /** One step of the filter: the head is kept exactly when it satisfies `p`. */
  lemma FilterCons<T>(x: T, xs: seq<T>, p: T -> bool)
    ensures Filter([x] + xs, p) == if p(x) then [x] + Filter(xs, p) else Filter(xs, p)
  {
    assert ([x] + xs)[1..] == xs;
  }

  /** A filter that keeps every element returns its input unchanged. */
  lemma {:induction false} FilterAll<T>(xs: seq<T>, p: T -> bool)
    requires forall i :: 0 <= i < |xs| ==> p(xs[i])
    ensures Filter(xs, p) == xs
  {
    if xs != [] {
      FilterAll(xs[1..], p);
    }
  }

  /** A filter that keeps no element returns the empty sequence. */
  lemma {:induction false} FilterNone<T>(xs: seq<T>, p: T -> bool)
    requires forall i :: 0 <= i < |xs| ==> !p(xs[i])
    ensures Filter(xs, p) == []
  {
    if xs != [] {
      FilterNone(xs[1..], p);
    }
  }

  /** `xs.filter(x => key(x) !== k)`: removes every element whose key is `k`. */
  function RemoveKey<T, K(==)>(xs: seq<T>, key: T -> K, k: K): seq<T>
  {
    Filter(xs, x => key(x) != k)
  }

  /** The removal shortens the sequence exactly when some element has key `k`,
      and what stays is everything without that key. */
  lemma RemoveKeyFacts<T, K>(xs: seq<T>, key: T -> K, k: K)
    ensures |RemoveKey(xs, key, k)| != |xs| <==> exists i :: 0 <= i < |xs| && key(xs[i]) == k
    ensures forall i :: 0 <= i < |RemoveKey(xs, key, k)| ==> key(RemoveKey(xs, key, k)[i]) != k
    ensures forall i :: 0 <= i < |xs| && key(xs[i]) != k ==> xs[i] in RemoveKey(xs, key, k)
    ensures (forall i :: 0 <= i < |xs| ==> key(xs[i]) != k) ==> RemoveKey(xs, key, k) == xs
  {
    var p := x => key(x) != k;
    assert |Filter(xs, p)| == |xs| <==> forall i :: 0 <= i < |xs| ==> p(xs[i]);
    FilterKeeps(xs, p);
    if forall i :: 0 <= i < |xs| ==> key(xs[i]) != k {
      FilterAll(xs, p);
    }
  }

  /** Removing a key that only the element at `i` has cuts out that element. */
  lemma RemoveKeyUnique<T, K>(xs: seq<T>, key: T -> K, i: nat)
    requires i < |xs|
    requires forall j :: 0 <= j < |xs| && j != i ==> key(xs[j]) != key(xs[i])
    ensures RemoveKey(xs, key, key(xs[i])) == xs[..i] + xs[i + 1..]
  {
    var k := key(xs[i]);
    var p := x => key(x) != k;
    var before, after := xs[..i], xs[i + 1..];
    assert xs == before + [xs[i]] + after;
    FilterAppend(before + [xs[i]], after, p);
    FilterAppend(before, [xs[i]], p);
    forall j | 0 <= j < |before| ensures p(before[j]) {
      assert before[j] == xs[j];
    }
    forall j | 0 <= j < |after| ensures p(after[j]) {
      assert after[j] == xs[i + 1 + j];
    }
    FilterAll(before, p);
    FilterAll(after, p);
    FilterNone([xs[i]], p);
  }

  /** `xs.findIndex(x => key(x) === k)`: the first index whose key is `k`, or -1. */
  function FindIndex<T, K(==)>(xs: seq<T>, key: T -> K, k: K): (r: int)
    ensures -1 <= r < |xs|
    ensures r >= 0 ==> key(xs[r]) == k && forall j :: 0 <= j < r ==> key(xs[j]) != k
    ensures r == -1 <==> forall j :: 0 <= j < |xs| ==> key(xs[j]) != k
  {
    if xs == [] then -1
    else if key(xs[0]) == k then 0
    else
      var i := FindIndex(xs[1..], key, k);
      if i == -1 then -1 else i + 1
  }

  /** `xs.find(x => key(x) === k)`: the first element whose key is `k`. */
  function Find<T, K(==)>(xs: seq<T>, key: T -> K, k: K): (r: Option<T>)
    ensures r.None? <==> forall j :: 0 <= j < |xs| ==> key(xs[j]) != k
    ensures r.Some? ==> r.value in xs && key(r.value) == k
    ensures r.Some? ==> exists i :: 0 <= i < |xs| && r.value == xs[i] && key(xs[i]) == k
                                    && forall j :: 0 <= j < i ==> key(xs[j]) != k
  {
    var i := FindIndex(xs, key, k);
    if i == -1 then None else Some(xs[i])
  }

  /** When no two elements share a key, looking up an element's key finds it. */
  lemma FindDistinct<T, K>(xs: seq<T>, key: T -> K, i: int)
    requires 0 <= i < |xs|
    requires forall a, b :: 0 <= a < b < |xs| ==> key(xs[a]) != key(xs[b])
    ensures Find(xs, key, key(xs[i])) == Some(xs[i])
  {
    var r := FindIndex(xs, key, key(xs[i]));
    if 0 <= r < i {
      assert false;
    }
  }

  /** The favourites toggle used by the store and the player:
      `list.includes(id) ? list.filter(f => f !== id) : [...list, id]`. */
  function Toggle(list: seq<string>, id: string): seq<string>
  {
    if id in list then Filter(list, f => f != id) else list + [id]
  }

  /** An absent id is appended at the end; a present id loses every occurrence
      and nothing else changes. */
  lemma ToggleFacts(list: seq<string>, id: string)
    ensures id in Toggle(list, id) <==> id !in list
    ensures id !in list ==> Toggle(list, id) == list + [id]
    ensures id in list ==> Toggle(list, id) == Filter(list, f => f != id)
    ensures forall f :: f != id ==> (f in Toggle(list, id) <==> f in list)
  {
    var p := (f: string) => f != id;
    FilterKeeps(list, p);
    FilterSubset(list, p);
    forall f | f != id && f in list ensures f in Filter(list, p) {
      var i :| 0 <= i < |list| && list[i] == f;
      assert p(list[i]);
    }
  }

  /** Toggling an absent id twice gives back the list exactly. */
  lemma ToggleTwiceRestores(list: seq<string>, id: string)
    requires id !in list
    ensures Toggle(Toggle(list, id), id) == list
  {
    var p := (f: string) => f != id;
    assert id in list + [id];
    FilterAppend(list, [id], p);
    FilterAll(list, p);
    assert Filter([id], p) == [];
  }

  // ---------------------------------------------------------------------------
  // Strings
  // ---------------------------------------------------------------------------

  /** The characters `String.prototype.trim` strips: the ECMAScript WhiteSpace
      (tab, vertical tab, form feed, the byte-order mark and every space
      separator) and LineTerminator code points. */
  predicate IsJsWhitespace(c: char)
  {
    c == '\t' || c == '\n' || c == '\U{000B}' || c == '\U{000C}' || c == '\r' || c == ' '
    || c == '\U{00A0}' || c == '\U{1680}' || ('\U{2000}' <= c <= '\U{200A}')
    || c == '\U{2028}' || c == '\U{2029}' || c == '\U{202F}' || c == '\U{205F}'
    || c == '\U{3000}' || c == '\U{FEFF}'
  }

  function TrimStart(s: string): (r: string)
    ensures |r| <= |s|
  {
    if s != [] && IsJsWhitespace(s[0]) then TrimStart(s[1..]) else s
  }

  /** `TrimStart` drops a whitespace prefix and stops at the first other
      character. */
  lemma {:induction false} TrimStartFacts(s: string)
    ensures TrimStart(s) == s[|s| - |TrimStart(s)|..]
    ensures TrimStart(s) == [] || !IsJsWhitespace(TrimStart(s)[0])
    ensures forall i :: 0 <= i < |s| - |TrimStart(s)| ==> IsJsWhitespace(s[i])
  {
    if s != [] && IsJsWhitespace(s[0]) {
      var rest := s[1..];
      TrimStartFacts(rest);
      forall i | 0 <= i < |s| - |TrimStart(s)| ensures IsJsWhitespace(s[i]) {
        if i > 0 {
          assert s[i] == rest[i - 1];
        }
      }
    }
  }

  function TrimEnd(s: string): (r: string)
    ensures |r| <= |s|
  {
    if s != [] && IsJsWhitespace(s[|s| - 1]) then TrimEnd(s[..|s| - 1]) else s
  }

  /** `TrimEnd` drops a whitespace suffix and stops at the last other
      character. */
  lemma {:induction false} TrimEndFacts(s: string)
    ensures TrimEnd(s) == s[..|TrimEnd(s)|]
    ensures TrimEnd(s) == [] || !IsJsWhitespace(TrimEnd(s)[|TrimEnd(s)| - 1])
    ensures forall i :: |TrimEnd(s)| <= i < |s| ==> IsJsWhitespace(s[i])
  {
    if s != [] && IsJsWhitespace(s[|s| - 1]) {
      var init := s[..|s| - 1];
      TrimEndFacts(init);
      forall i | |TrimEnd(s)| <= i < |s| ensures IsJsWhitespace(s[i]) {
        if i < |s| - 1 {
          assert s[i] == init[i];
        }
      }
    }
  }

  /** `s.trim()`. */
  function Trim(s: string): string
  {
    TrimEnd(TrimStart(s))
  }

  /** The trimmed text is a slice of the input with no whitespace at either end;
      it is empty exactly when the input is all whitespace. */
  lemma TrimFacts(s: string)
    ensures Trim(s) == s[|s| - |TrimStart(s)|..|s| - |TrimStart(s)| + |Trim(s)|]
    ensures Trim(s) == [] || (!IsJsWhitespace(Trim(s)[0]) && !IsJsWhitespace(Trim(s)[|Trim(s)| - 1]))
    ensures Trim(s) == [] <==> forall i :: 0 <= i < |s| ==> IsJsWhitespace(s[i])
  {
    var t := TrimStart(s);
    var a := |s| - |t|;
    TrimStartFacts(s);
    TrimEndFacts(t);
    assert Trim(s) == s[a..a + |Trim(s)|];
    if Trim(s) != [] {
      assert Trim(s)[0] == t[0];
    }
    if Trim(s) == [] {
      assert t == [];
    }
  }

  /** Trimming twice is trimming once. */
  lemma TrimIdempotent(s: string)
    ensures Trim(Trim(s)) == Trim(s)
  {
    TrimFacts(s);
  }

  /** The lower-case form of one character; only ASCII A–Z change. */
  function LowerChar(c: char): char
  {
    if 'A' <= c <= 'Z' then (c as int + 32) as char else c
  }

  /** `s.toLowerCase()` restricted to the ASCII letters. */
  function ToLower(s: string): (r: string)
    ensures |r| == |s|
    ensures forall i :: 0 <= i < |s| ==> r[i] == LowerChar(s[i])
  {
    seq(|s|, i requires 0 <= i < |s| => LowerChar(s[i]))
  }

  /** `s.includes(t)`: `t` occurs in `s` as a contiguous block. */
  predicate Includes(s: string, t: string)
  {
    exists i :: 0 <= i <= |s| && OccursAt(s, t, i)
  }

  /** `t` occurs in `s` starting at index `i`. */
  predicate OccursAt(s: string, t: string, i: int)
  {
    0 <= i <= |s| - |t| && s[i..i + |t|] == t
  }

  /** Every string includes the empty string. */
  lemma IncludesEmpty(s: string)
    ensures Includes(s, "")
  {
    assert OccursAt(s, "", 0);
  }

  predicate IsDigit(c: char)
  {
    '0' <= c <= '9'
  }

  /** `n.toString()` for a natural number: its decimal digits, no leading zero. */
  function NatToString(n: nat): (r: string)
    ensures |r| >= 1
    ensures forall i :: 0 <= i < |r| ==> IsDigit(r[i])
    ensures |r| > 1 ==> r[0] != '0'
    decreases n
  {
    if n < 10 then [('0' as int + n) as char]
    else NatToString(n / 10) + [('0' as int + n % 10) as char]
  }

  /** The value of a string of decimal digits. */
  function DigitsValue(s: string): nat
    requires forall i :: 0 <= i < |s| ==> IsDigit(s[i])
  {
    if s == [] then 0
    else
      assert IsDigit(s[|s| - 1]);
      10 * DigitsValue(s[..|s| - 1]) + (s[|s| - 1] as int - '0' as int)
  }

  /** Reading the digits back gives the number that was formatted. */
  lemma {:induction false} NatToStringRoundTrip(n: nat)
    ensures DigitsValue(NatToString(n)) == n
    decreases n
  {
    var r := NatToString(n);
    if n >= 10 {
      NatToStringRoundTrip(n / 10);
      assert r[..|r| - 1] == NatToString(n / 10);
    }
  }

  /** `s.padStart(2, '0')` for a string of at most two characters. */
  function PadStart2(s: string): (r: string)
    requires |s| <= 2
    ensures |r| == 2 && r[2 - |s|..] == s
    ensures forall i :: 0 <= i < 2 - |s| ==> r[i] == '0'
  {
    if |s| == 2 then s else if |s| == 1 then ['0'] + s else "00"
  }
}
