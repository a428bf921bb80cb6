/**
 * The Kotlin standard-library operations on strings and collections that the
 * translator relies on, each written out with the behaviour Kotlin gives it.
 */
module KotlinStd {
  import opened Wrappers

  /** `list.find(predicate)`: the first element satisfying the predicate, or none. */
  function Find<T>(xs: seq<T>, p: T -> bool): (r: Option<T>)
    ensures r.None? <==> forall i :: 0 <= i < |xs| ==> !p(xs[i])
    ensures r.Some? ==> exists i :: 0 <= i < |xs| && xs[i] == r.value && p(r.value)
                                    && forall j :: 0 <= j < i ==> !p(xs[j])
  {
    if xs == [] then None
    else if p(xs[0]) then Some(xs[0])
    else
      var r := Find(xs[1..], p);
      assert r.Some? ==> exists i :: 0 <= i < |xs| && xs[i] == r.value && p(r.value)
                                     && forall j :: 0 <= j < i ==> !p(xs[j]) by {
        if r.Some? {
          var i :| 0 <= i < |xs[1..]| && xs[1..][i] == r.value && p(r.value)
                   && forall j :: 0 <= j < i ==> !p(xs[1..][j]);
          assert xs[i + 1] == r.value;
          assert forall j :: 0 <= j < i + 1 ==> !p(xs[j]) by {
            forall j | 0 <= j < i + 1 ensures !p(xs[j]) {
              if j > 0 { assert xs[j] == xs[1..][j - 1]; }
            }
          }
        }
      }
      r
  }

  // ---------------------------------------------------------------------
  // Kotlin strings are sequences of UTF-16 code units

  /** A UTF-16 code unit: Kotlin's `Char`. */
  type CodeUnit = x: int | 0 <= x < 0x1_0000

  /** Characters outside the Basic Multilingual Plane, which UTF-16 stores as a surrogate pair. */
  predicate Astral(c: char)
  {
    c as int >= 0x1_0000
  }

  /** The UTF-16 encoding of one character: itself, or a high then a low surrogate. */
  function Units(c: char): (u: seq<CodeUnit>)
    ensures !Astral(c) ==> u == [c as int]
    ensures Astral(c) ==> |u| == 2 && 0xD800 <= u[0] < 0xDC00 <= u[1] < 0xE000
  {
    if !Astral(c) then [c as int]
    else
      var v := c as int - 0x1_0000;
      [0xD800 + v / 0x400, 0xDC00 + v % 0x400]
  }

  /** The code units Kotlin holds for `s`. */
  function Utf16(s: string): seq<CodeUnit>
  {
    if s == [] then [] else Units(s[0]) + Utf16(s[1..])
  }

  /** `s.length`: the number of UTF-16 code units, so a character outside the BMP counts twice. */
  function Length(s: string): nat
  {
    |Utf16(s)|
  }

  lemma {:induction false} Utf16Append(a: string, b: string)
    ensures Utf16(a + b) == Utf16(a) + Utf16(b)
  {
    if a == [] {
      assert a + b == b;
    } else {
      assert (a + b)[0] == a[0] && (a + b)[1..] == a[1..] + b;
      Utf16Append(a[1..], b);
    }
  }

  lemma LengthAppend(a: string, b: string)
    ensures Length(a + b) == Length(a) + Length(b)
  {
    Utf16Append(a, b);
  }

  /** A string's length is its character count plus one for each character outside the BMP. */
  lemma {:induction false} LengthCounts(s: string)
    ensures |s| <= Length(s) <= 2 * |s|
    ensures (forall i :: 0 <= i < |s| ==> !Astral(s[i])) ==> Length(s) == |s| && forall i :: 0 <= i < |s| ==> Utf16(s)[i] == s[i] as int
  {
    if s != [] {
      LengthCounts(s[1..]);
      if forall i :: 0 <= i < |s| ==> !Astral(s[i]) {
        assert forall i :: 0 <= i < |s[1..]| ==> !Astral(s[1..][i]) by {
          forall i | 0 <= i < |s[1..]| ensures !Astral(s[1..][i]) {
            assert s[1..][i] == s[i + 1];
          }
        }
      }
    }
  }

  /** A one-character string outside the BMP has length 2. */
  lemma AstralLength(c: char)
    requires Astral(c)
    ensures Length([c]) == 2
  {
    assert [c][0] == c && [c][1..] == [];
    assert Utf16([c]) == Units(c) + Utf16([]);
  }

  /** `list.sumOf { it.length }`: no line is longer than all of them together. */
  function SumLengths(list: seq<string>): (n: nat)
    ensures forall i :: 0 <= i < |list| ==> Length(list[i]) <= n
  {
    if list == [] then 0
    else
      assert forall i :: 1 <= i < |list| ==> list[i] == list[1..][i - 1];
      Length(list[0]) + SumLengths(list[1..])
  }

  lemma {:induction false} SumLengthsAppend(a: seq<string>, b: seq<string>)
    ensures SumLengths(a + b) == SumLengths(a) + SumLengths(b)
  {
    if a != [] {
      assert (a + b)[1..] == a[1..] + b;
      SumLengthsAppend(a[1..], b);
    } else {
      assert a + b == b;
    }
  }

  /** `joinToString("")` */
  function Concat(list: seq<string>): string
  {
    if list == [] then "" else list[0] + Concat(list[1..])
  }

  /** `joinToString("\n")`: the lines with one '\n' between neighbours. */
  function JoinLines(lines: seq<string>): string
  {
    if |lines| == 0 then ""
    else if |lines| == 1 then lines[0]
    else lines[0] + "\n" + JoinLines(lines[1..])
  }

  /** Number of occurrences of `c` in `s`. */
  function Occurrences(s: string, c: char): nat
  {
    if s == [] then 0 else (if s[0] == c then 1 else 0) + Occurrences(s[1..], c)
  }

  /**
   * `split("\n")`: the pieces between separators, empty pieces included
   * (Kotlin keeps leading and trailing empty pieces, so "" splits into [""]).
   */
  function SplitLines(s: string): (pieces: seq<string>)
    ensures |pieces| == Occurrences(s, '\n') + 1
    ensures forall i :: 0 <= i < |pieces| ==> '\n' !in pieces[i]
  {
    if |s| == 0 then [""]
    else if s[0] == '\n' then [""] + SplitLines(s[1..])
    else
      var rest := SplitLines(s[1..]);
      [[s[0]] + rest[0]] + rest[1..]
  }

  /** A prefix free of separators is glued to the first piece of the rest. */
  lemma {:induction false} SplitLinesPrefix(x: string, t: string)
    requires '\n' !in x
    ensures SplitLines(x + t) == [x + SplitLines(t)[0]] + SplitLines(t)[1..]
  {
    if x == [] {
      assert x + t == t;
      assert x + SplitLines(t)[0] == SplitLines(t)[0];
    } else {
      assert (x + t)[0] == x[0];
      assert (x + t)[1..] == x[1..] + t;
      SplitLinesPrefix(x[1..], t);
      assert [x[0]] + (x[1..] + SplitLines(t)[0]) == x + SplitLines(t)[0];
    }
  }

  /**
   * Splitting the '\n'-join of separator-free lines gives the lines back
   * (Translation.kt:77 joins a chunk, line 90 splits its translation).
   */
  lemma {:induction false} SplitJoinLines(lines: seq<string>)
    requires |lines| >= 1
    requires forall i :: 0 <= i < |lines| ==> '\n' !in lines[i]
    ensures SplitLines(JoinLines(lines)) == lines
  {
    if |lines| == 1 {
      SplitLinesPrefix(lines[0], "");
      assert lines[0] + "" == lines[0];
    } else {
      var t := JoinLines(lines[1..]);
      SplitJoinLines(lines[1..]);
      assert lines[0] + "\n" + t == lines[0] + ("\n" + t);
      SplitLinesPrefix(lines[0], "\n" + t);
      assert ("\n" + t)[0] == '\n' && ("\n" + t)[1..] == t;
      assert SplitLines("\n" + t) == [""] + lines[1..];
      assert lines[0] + "" == lines[0];
      assert lines == [lines[0]] + lines[1..];
    }
  }

  /** The '\n'-join of `lines` is as long as the length accounting of Translation.kt:123 says. */
  lemma {:induction false} JoinLinesLength(lines: seq<string>)
    requires |lines| >= 1
    ensures Length(JoinLines(lines)) == SumLengths(lines) + |lines| - 1
  {
    if |lines| > 1 {
      JoinLinesLength(lines[1..]);
      LengthAppend(lines[0] + "\n", JoinLines(lines[1..]));
      LengthAppend(lines[0], "\n");
      assert Length("\n") == 1 by { assert "\n"[1..] == []; }
    }
  }

  /** `replace("\n", " ")` */
  function ReplaceNewlines(s: string): (r: string)
    ensures |r| == |s| && '\n' !in r
    ensures forall i :: 0 <= i < |s| && s[i] != '\n' ==> r[i] == s[i]
    ensures forall i :: 0 <= i < |s| && s[i] == '\n' ==> r[i] == ' '
  {
    seq(|s|, i requires 0 <= i < |s| => if s[i] == '\n' then ' ' else s[i])
  }

  /** `lowercase()`, restricted to ASCII letters. */
  function Lowercase(s: string): (r: string)
    ensures |r| == |s|
    ensures forall i :: 0 <= i < |s| && 'A' <= s[i] <= 'Z' ==> r[i] as int == s[i] as int - 'A' as int + 'a' as int
    ensures forall i :: 0 <= i < |s| && !('A' <= s[i] <= 'Z') ==> r[i] == s[i]
  {
    seq(|s|, i requires 0 <= i < |s| => if 'A' <= s[i] <= 'Z' then (s[i] as int + 32) as char else s[i])
  }

  function Digit(d: nat): (c: char)
    requires d < 10
    ensures '0' <= c <= '9' && c as int == '0' as int + d
  {
    ('0' as int + d) as char
  }

  /** The decimal digits of `n`, most significant first, without leading zeros. */
  function NatString(n: nat): (r: string)
    ensures |r| >= 1 && (n >= 10 ==> |r| >= 2)
    ensures forall i :: 0 <= i < |r| ==> '0' <= r[i] <= '9'
    decreases n
  {
    if n < 10 then [Digit(n)] else NatString(n / 10) + [Digit(n % 10)]
  }

  /** `Int.toString()`: decimal, with a leading '-' for negative values. */
  function DecimalString(n: int): (r: string)
    ensures |r| >= 1 && (r[0] == '-' <==> n < 0)
    ensures forall i :: 0 < i < |r| ==> '0' <= r[i] <= '9'
  {
    if n < 0 then "-" + NatString(-n) else NatString(n)
  }

  lemma {:induction false} NatStringInjective(a: nat, b: nat)
    requires NatString(a) == NatString(b)
    ensures a == b
    decreases a
  {
    if a >= 10 && b >= 10 {
      var sa, sb := NatString(a), NatString(b);
      assert sa[|sa| - 1] == Digit(a % 10) && sb[|sb| - 1] == Digit(b % 10);
      assert sa[..|sa| - 1] == NatString(a / 10) && sb[..|sb| - 1] == NatString(b / 10);
      NatStringInjective(a / 10, b / 10);
    } else if a < 10 && b < 10 {
      assert NatString(a)[0] == Digit(a) && NatString(b)[0] == Digit(b);
    }
  }

  /** Different integers print differently. */
  lemma DecimalStringInjective(a: int, b: int)
    ensures DecimalString(a) == DecimalString(b) <==> a == b
  {
    if DecimalString(a) == DecimalString(b) {
      if a < 0 {
        assert DecimalString(a)[1..] == NatString(-a) && DecimalString(b)[1..] == NatString(-b);
        NatStringInjective(-a, -b);
      } else {
        NatStringInjective(a, b);
      }
    }
  }

  /** `flatten()`: the lists one after the other. */
  function Flatten<T>(s: seq<seq<T>>): seq<T>
  {
    if s == [] then [] else Flatten(s[..|s| - 1]) + s[|s| - 1]
  }

  lemma {:induction false} FlattenAppend<T>(a: seq<seq<T>>, b: seq<seq<T>>)
    ensures Flatten(a + b) == Flatten(a) + Flatten(b)
  {
    if b == [] {
      assert a + b == a;
    } else {
      var init, last := b[..|b| - 1], b[|b| - 1];
      assert (a + b)[..|a + b| - 1] == a + init && (a + b)[|a + b| - 1] == last;
      FlattenAppend(a, init);
      calc {
        Flatten(a + b);
        Flatten(a + init) + last;
        (Flatten(a) + Flatten(init)) + last;
        Flatten(a) + (Flatten(init) + last);
      }
    }
  }

  /** Every element of every list reappears in the flattened list. */
  lemma {:induction false} FlattenMember<T>(s: seq<seq<T>>, i: nat, j: nat)
    requires i < |s| && j < |s[i]|
    ensures s[i][j] in Flatten(s)
  {
    if i < |s| - 1 {
      FlattenMember(s[..|s| - 1], i, j);
    }
  }

  /**
   * `keys.zip(values).toMap()`: pairs up to the shorter length; a later pair
   * with the same key replaces an earlier one.
   */
  function ZipToMap<K(==), V>(keys: seq<K>, values: seq<V>): (m: map<K, V>)
    ensures forall i :: 0 <= i < |keys| && i < |values| ==> keys[i] in m
    ensures forall k :: k in m ==> k in keys[..Min(|keys|, |values|)]
  {
    var n := Min(|keys|, |values|);
    ZipPairs(keys[..n], values[..n])
  }

  function Min(a: nat, b: nat): nat
  {
    if a < b then a else b
  }

  /** No later position of `keys` holds the key at position `i`. */
  predicate LastOccurrence<K(==)>(keys: seq<K>, i: nat)
    requires i < |keys|
  {
    forall j :: i < j < |keys| ==> keys[j] != keys[i]
  }

  function ZipPairs<K(==), V>(keys: seq<K>, values: seq<V>): (m: map<K, V>)
    requires |keys| == |values|
    ensures forall i :: 0 <= i < |keys| ==> keys[i] in m
    ensures forall k :: k in m ==> k in keys
  {
    if keys == [] then map[]
    else
      var n := |keys|;
      ZipPairs(keys[..n - 1], values[..n - 1])[keys[n - 1] := values[n - 1]]
  }

  /** The value of a paired key is the one paired at its last position. */
  lemma {:induction false} ZipToMapAt<K, V>(keys: seq<K>, values: seq<V>, i: nat)
    requires i < |keys| && i < |values| && LastOccurrence(keys, i)
    ensures ZipToMap(keys, values)[keys[i]] == values[i]
  {
    var n := Min(|keys|, |values|);
    var prefix := keys[..n];
    assert LastOccurrence(prefix, i) by {
      forall j | i < j < |prefix| ensures prefix[j] != prefix[i] {
        assert keys[j] != keys[i];
      }
    }
    ZipPairsAt(keys[..n], values[..n], i);
  }

  lemma {:induction false} ZipPairsAt<K, V>(keys: seq<K>, values: seq<V>, i: nat)
    requires |keys| == |values| && i < |keys| && LastOccurrence(keys, i)
    ensures ZipPairs(keys, values)[keys[i]] == values[i]
  {
    var n := |keys|;
    if i < n - 1 {
      assert keys[i] != keys[n - 1];
      var prefix := keys[..n - 1];
      assert LastOccurrence(prefix, i) by {
        forall j | i < j < |prefix| ensures prefix[j] != prefix[i] {
          assert keys[j] != keys[i];
        }
      }
      ZipPairsAt(keys[..n - 1], values[..n - 1], i);
    }
  }
}
