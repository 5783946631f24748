/** The string helpers of the component runtime: camel-case and Pascal-case to
    kebab-case conversion (the former memoised) and the `<tag>` rendering of an
    element used in error messages. Regular expressions and `toLowerCase` are
    modelled as ASCII character rules. */
module Utils {

  predicate IsUpper(c: char) { 'A' <= c <= 'Z' }

  predicate IsLower(c: char) { 'a' <= c <= 'z' }

  /** ASCII `toLowerCase` of one character. */
  function LowerChar(c: char): (r: char)
    ensures !IsUpper(r)
    ensures IsUpper(c) ==> IsLower(r) && r as int == c as int + 32
    ensures !IsUpper(c) ==> r == c
  {
    if IsUpper(c) then (c as int + 32) as char else c
  }

  /** ASCII `toLowerCase` of a string. */
  function Lower(s: string): (r: string)
    ensures |r| == |s|
    ensures forall i :: 0 <= i < |s| ==> r[i] == LowerChar(s[i])
  {
    seq(|s|, i requires 0 <= i < |s| => LowerChar(s[i]))
  }

  predicate NoUpper(s: string) { forall i :: 0 <= i < |s| ==> !IsUpper(s[i]) }

  lemma {:induction false} LowerOfNoUpper(s: string)
    requires NoUpper(s)
    ensures Lower(s) == s
  {
    assert forall i :: 0 <= i < |s| ==> Lower(s)[i] == s[i];
  }

  // ---------------------------------------------------------------------
  // camelToDash

  /** A "hump": a lowercase letter at `j` immediately followed by an uppercase one. */
  predicate Hump(s: string, j: int) {
    0 <= j && j + 1 < |s| && IsLower(s[j]) && IsUpper(s[j + 1])
  }

  /** Number of humps at positions below `i`. */
  function HumpsBefore(s: string, i: nat): nat
    decreases i
  {
    if i == 0 then 0 else HumpsBefore(s, i - 1) + (if Hump(s, i - 1) then 1 else 0)
  }

  function Humps(s: string): nat { HumpsBefore(s, |s|) }

  /** `str.replace(/([a-z])([A-Z])/g, "$1-$2")`: a dash between the two letters
      of every hump. Matches of the pattern can never overlap (the second letter
      of a match is uppercase, so it cannot start the next one), hence the scan
      one character at a time. */
  function CamelDashes(s: string): string
  {
    if |s| < 2 then s
    else if IsLower(s[0]) && IsUpper(s[1]) then [s[0], '-'] + CamelDashes(s[1..])
    else [s[0]] + CamelDashes(s[1..])
  }

  /** The value `camelToDash` computes for `str`. */
  function CamelDashed(s: string): string { Lower(CamelDashes(s)) }

  lemma {:induction false} HumpsBeforeTail(s: string, i: nat)
    requires 1 <= i <= |s|
    ensures HumpsBefore(s, i) == (if Hump(s, 0) then 1 else 0) + HumpsBefore(s[1..], i - 1)
  {
    if i > 1 {
      HumpsBeforeTail(s, i - 1);
      assert Hump(s, i - 1) == Hump(s[1..], i - 2);
    }
  }

  lemma {:induction false} HumpsBeforeNoUpper(s: string, i: nat)
    requires NoUpper(s) && i <= |s|
    ensures HumpsBefore(s, i) == 0
  {
    if i > 0 { HumpsBeforeNoUpper(s, i - 1); }
  }

  /** Where character `i` of the input lands in `CamelDashes(s)`, and the dash
      after it when it starts a hump; together with the length this pins the
      output down completely. */
  lemma {:induction false} CamelDashesAt(s: string, i: nat)
    requires i < |s|
    ensures |CamelDashes(s)| == |s| + Humps(s)
    ensures i + HumpsBefore(s, i) < |CamelDashes(s)|
    ensures CamelDashes(s)[i + HumpsBefore(s, i)] == s[i]
    ensures Hump(s, i) ==> i + HumpsBefore(s, i) + 1 < |CamelDashes(s)|
    ensures Hump(s, i) ==> CamelDashes(s)[i + HumpsBefore(s, i) + 1] == '-'
  {
    var t := s[1..];
    if |s| == 1 {
      assert HumpsBefore(s, 1) == 0;
    } else {
      HumpsBeforeTail(s, |s|);
      var pre := if Hump(s, 0) then [s[0], '-'] else [s[0]];
      assert CamelDashes(s) == pre + CamelDashes(t);
      if i == 0 {
        CamelDashesAt(t, 0);
        assert HumpsBefore(s, 0) == 0;
      } else {
        CamelDashesAt(t, i - 1);
        HumpsBeforeTail(s, i);
        assert Hump(s, i) == Hump(t, i - 1);
        var j := i - 1 + HumpsBefore(t, i - 1);
        assert i + HumpsBefore(s, i) == |pre| + j;
        assert CamelDashes(s)[|pre| + j] == CamelDashes(t)[j];
        if Hump(s, i) {
          assert CamelDashes(s)[|pre| + j + 1] == CamelDashes(t)[j + 1];
        }
      }
    }
  }

  lemma {:induction false} CamelDashesLength(s: string)
    ensures |CamelDashes(s)| == |s| + Humps(s)
  {
    if |s| == 0 {
    } else {
      CamelDashesAt(s, 0);
    }
  }

  /** The character rule of `camelToDash`: input character `i` appears,
      lowercased, at position `i` plus the number of earlier humps, followed by a
      dash when it starts a hump; the output is as long as the input plus one
      per hump and holds no uppercase letter. */
  lemma CamelDashedAt(s: string, i: nat)
    requires i < |s|
    ensures |CamelDashed(s)| == |s| + Humps(s)
    ensures i + HumpsBefore(s, i) < |CamelDashed(s)|
    ensures Hump(s, i) ==> i + HumpsBefore(s, i) + 1 < |CamelDashed(s)|
    ensures CamelDashed(s)[i + HumpsBefore(s, i)] == LowerChar(s[i])
    ensures Hump(s, i) ==> CamelDashed(s)[i + HumpsBefore(s, i) + 1] == '-'
  {
    CamelDashesAt(s, i);
  }

  /** Output shape: no uppercase letters and one extra character per hump. */
  lemma CamelDashedShape(s: string)
    ensures NoUpper(CamelDashed(s))
    ensures |CamelDashed(s)| == |s| + Humps(s)
  {
    CamelDashesLength(s);
  }

  lemma {:induction false} CamelDashesNoUpper(s: string)
    requires NoUpper(s)
    ensures CamelDashes(s) == s
  {
    if |s| >= 2 {
      assert NoUpper(s[1..]);
      CamelDashesNoUpper(s[1..]);
      assert !IsUpper(s[1]);
    }
  }

  /** An input with no uppercase letter (in particular an all-lowercase one) is
      returned unchanged. */
  lemma CamelDashedNoUpper(s: string)
    requires NoUpper(s)
    ensures CamelDashed(s) == s
  {
    CamelDashesNoUpper(s);
    LowerOfNoUpper(s);
  }

  /** Converting an already converted string changes nothing. */
  lemma CamelDashedIdempotent(s: string)
    ensures CamelDashed(CamelDashed(s)) == CamelDashed(s)
  {
    CamelDashedNoUpper(CamelDashed(s));
  }

  /** The module-level `camelToDashMap` cache behind `camelToDash`. */
  class CamelToDashMemo {
    var entries: map<string, string>

    /** Every cached value is the conversion of its key. */
    ghost predicate Valid()
      reads this
    {
      forall k :: k in entries ==> entries[k] == CamelDashed(k)
    }

    constructor ()
      ensures Valid() && entries == map[]
    {
      entries := map[];
    }

    /** `camelToDash(str)`: a cached result is returned as it is; otherwise the
        conversion is computed and stored. Either way the cache then maps `str`
        to the result. */
    method CamelToDash(str: string) returns (result: string)
      requires Valid()
      modifies this
      ensures Valid()
      ensures result == CamelDashed(str)
      ensures str in old(entries) ==> result == old(entries)[str] && entries == old(entries)
      ensures entries == old(entries)[str := result]
    {
      if str in entries {
        result := entries[str];
      } else {
        result := Lower(CamelDashes(str));
        entries := entries[str := result];
      }
    }

    /** `pascalToDash(str)`: the Pascal-case dashes, then the memoised
        `camelToDash` (which caches under the dashed intermediate string). */
    method PascalToDash(str: string) returns (result: string)
      requires Valid()
      modifies this
      ensures Valid()
      ensures result == PascalDashed(str)
      ensures entries == old(entries)[PascalDashes(str) := result]
    {
      result := CamelToDash(PascalDashes(str));
    }
  }

  // ---------------------------------------------------------------------
  // pascalToDash

  /** `/((?!([A-Z]{2}|^))[A-Z])/g` matches the uppercase letter at `i` unless it is
      the first character or the next character is uppercase too. */
  predicate DashBefore(s: string, i: int) {
    0 < i < |s| && IsUpper(s[i]) && !(i + 1 < |s| && IsUpper(s[i + 1]))
  }

  /** `replace(..., "-$1")` applied from position `i` on. */
  function PascalDashesFrom(s: string, i: nat): string
    decreases |s| - i
  {
    if i >= |s| then []
    else (if DashBefore(s, i) then ['-', s[i]] else [s[i]]) + PascalDashesFrom(s, i + 1)
  }

  function PascalDashes(s: string): string { PascalDashesFrom(s, 0) }

  /** The value `pascalToDash` computes for `str`. */
  function PascalDashed(s: string): string { CamelDashed(PascalDashes(s)) }

  /** Number of dashes `pascalToDash` inserts at positions `i` and above. */
  function DashesFrom(s: string, i: nat): nat
    decreases |s| - i
  {
    if i >= |s| then 0 else (if DashBefore(s, i) then 1 else 0) + DashesFrom(s, i + 1)
  }

  /** `s` with every `-` removed. */
  function WithoutDashes(s: string): string
  {
    if s == [] then [] else (if s[0] == '-' then [] else [s[0]]) + WithoutDashes(s[1..])
  }

  lemma {:induction false} WithoutDashesAppend(a: string, b: string)
    ensures WithoutDashes(a + b) == WithoutDashes(a) + WithoutDashes(b)
  {
    if a != [] {
      assert (a + b)[0] == a[0] && (a + b)[1..] == a[1..] + b;
      WithoutDashesAppend(a[1..], b);
      var h := if a[0] == '-' then [] else [a[0]];
      assert WithoutDashes(a + b) == h + WithoutDashes(a[1..] + b);
      assert WithoutDashes(a) == h + WithoutDashes(a[1..]);
    } else {
      assert a + b == b;
    }
  }

  /** Only dashes are inserted, one per `DashBefore` position: removing all
      dashes gives the same as removing them from the input, and the length
      grows by the number of matches. */
  lemma {:induction false} PascalDashesFromShape(s: string, i: nat)
    requires i <= |s|
    ensures |PascalDashesFrom(s, i)| == |s| - i + DashesFrom(s, i)
    ensures WithoutDashes(PascalDashesFrom(s, i)) == WithoutDashes(s[i..])
    decreases |s| - i
  {
    if i < |s| {
      PascalDashesFromShape(s, i + 1);
      assert s[i..] == [s[i]] + s[i + 1..];
      var head := if DashBefore(s, i) then ['-', s[i]] else [s[i]];
      WithoutDashesAppend(head, PascalDashesFrom(s, i + 1));
      WithoutDashesAppend([s[i]], s[i + 1..]);
      assert WithoutDashes(head) == WithoutDashes([s[i]]);
    }
  }

  /** Number of `DashBefore` positions in `[i, k)`. */
  function DashesBetween(s: string, i: nat, k: nat): nat
    decreases k - i
  {
    if i >= k then 0 else (if DashBefore(s, i) then 1 else 0) + DashesBetween(s, i + 1, k)
  }

  /** Where character `k` of the input lands in the output of the scan started
      at `i`: its offset plus the dashes inserted before it, preceded by a dash
      exactly when `DashBefore` holds there. With the length from
      `PascalDashesFromShape` this fixes every output character. */
  lemma {:induction false} PascalDashesFromAt(s: string, i: nat, k: nat)
    requires i <= k < |s|
    ensures var pos := k - i + DashesBetween(s, i, k);
      var d := if DashBefore(s, k) then 1 else 0;
      && pos + d < |PascalDashesFrom(s, i)|
      && PascalDashesFrom(s, i)[pos + d] == s[k]
      && (DashBefore(s, k) ==> PascalDashesFrom(s, i)[pos] == '-')
    decreases k - i
  {
    var head := if DashBefore(s, i) then ['-', s[i]] else [s[i]];
    var rest := PascalDashesFrom(s, i + 1);
    assert PascalDashesFrom(s, i) == head + rest;
    if i < k {
      PascalDashesFromAt(s, i + 1, k);
      assert k - i + DashesBetween(s, i, k) == |head| + (k - (i + 1) + DashesBetween(s, i + 1, k));
    }
  }

  lemma {:induction false} DashesFromBetween(s: string, i: nat)
    requires i <= |s|
    ensures DashesFrom(s, i) == DashesBetween(s, i, |s|)
    decreases |s| - i
  {
    if i < |s| { DashesFromBetween(s, i + 1); }
  }

  /** `PascalDashesFromAt` for the whole string: a dash goes before each
      uppercase letter `DashBefore` selects, and the output is as long as the
      input plus those dashes, so there are no others. */
  lemma PascalDashesAt(s: string, k: nat)
    requires k < |s|
    ensures |PascalDashes(s)| == |s| + DashesBetween(s, 0, |s|)
    ensures var pos := k + DashesBetween(s, 0, k);
      var d := if DashBefore(s, k) then 1 else 0;
      && pos + d < |PascalDashes(s)|
      && PascalDashes(s)[pos + d] == s[k]
      && (DashBefore(s, k) ==> PascalDashes(s)[pos] == '-')
  {
    PascalDashesFromAt(s, 0, k);
    PascalDashesFromShape(s, 0);
    DashesFromBetween(s, 0);
  }

  lemma {:induction false} PascalDashesFromNoUpper(s: string, i: nat)
    requires NoUpper(s) && i <= |s|
    ensures PascalDashesFrom(s, i) == s[i..]
    decreases |s| - i
  {
    if i < |s| {
      PascalDashesFromNoUpper(s, i + 1);
      assert s[i..] == [s[i]] + s[i + 1..];
    }
  }

  /** `pascalToDash` yields no uppercase letter, never shortens its input, and
      leaves a string without uppercase letters unchanged. */
  lemma PascalDashedShape(s: string)
    ensures NoUpper(PascalDashed(s))
    ensures |PascalDashed(s)| >= |s|
    ensures NoUpper(s) ==> PascalDashed(s) == s
  {
    PascalDashesFromShape(s, 0);
    CamelDashedShape(PascalDashes(s));
    if NoUpper(s) {
      PascalDashesFromNoUpper(s, 0);
      CamelDashedNoUpper(s);
    }
  }

  // ---------------------------------------------------------------------
  // stringifyElement

  /** `<${String(target.tagName).toLowerCase()}>` */
  function StringifyElement(tagName: string): (r: string)
    ensures |r| == |tagName| + 2 && r[0] == '<' && r[|r| - 1] == '>'
    ensures r[1..|r| - 1] == Lower(tagName)
    ensures NoUpper(r)
  {
    "<" + Lower(tagName) + ">"
  }
}
