// The string operations the compilers use, written out.
module PyText {

  // The characters that str.strip removes.
  predicate IsSpace(c: char) {
    var n := c as int;
    9 <= n <= 13 || 28 <= n <= 32 || n == 0x85 || n == 0xA0 || n == 0x1680
    || 0x2000 <= n <= 0x200A || n == 0x2028 || n == 0x2029 || n == 0x202F || n == 0x205F || n == 0x3000
  }

  function LeftStrip(s: string): string {
    if s != [] && IsSpace(s[0]) then LeftStrip(s[1..]) else s
  }

  function RightStrip(s: string): string {
    if s != [] && IsSpace(s[|s| - 1]) then RightStrip(s[..|s| - 1]) else s
  }

  function Strip(s: string): string {
    RightStrip(LeftStrip(s))
  }

  function Replace(s: string, was: char, becomes: char): string {
    if s == [] then [] else [if s[0] == was then becomes else s[0]] + Replace(s[1..], was, becomes)
  }

  // Lower-casing of the letters A to Z; enough to compare with lower-case words.
  function Lower(s: string): string {
    if s == [] then []
    else [if 'A' <= s[0] <= 'Z' then (s[0] as int + 32) as char else s[0]] + Lower(s[1..])
  }

  predicate EndsWith(s: string, suffix: string) {
    |suffix| <= |s| && s[|s| - |suffix|..] == suffix
  }

  predicate StartsWith(s: string, prefix: string) {
    |prefix| <= |s| && s[..|prefix|] == prefix
  }

  // The text before the first separator, or all of it.
  function Before(s: string, separator: char): string {
    if s == [] || s[0] == separator then [] else [s[0]] + Before(s[1..], separator)
  }

  // The text before the last separator, or all of it.
  function BeforeLast(s: string, separator: char): string {
    if separator !in s then s
    else if s[|s| - 1] == separator then s[..|s| - 1]
    else BeforeLast(s[..|s| - 1], separator)
  }

  function Split(s: string, separator: char): seq<string> {
    if s == [] then [""]
    else
      var rest := Split(s[1..], separator);
      if s[0] == separator then [""] + rest
      else if rest == [] then [[s[0]]]
      else [[s[0]] + rest[0]] + rest[1..]
  }

  // ----- what these operations mean -----

  // The longest part of s without spaces at its ends: nothing but spaces goes.
  lemma StripMeaning(s: string) returns (i: nat, j: nat)
    ensures i <= j <= |s| && Strip(s) == s[i..j]
    ensures forall k :: 0 <= k < i || j <= k < |s| ==> IsSpace(s[k])
    ensures i < j ==> !IsSpace(s[i]) && !IsSpace(s[j - 1])
  {
    i := LeftStripMeaning(s);
    var t := LeftStrip(s);
    var n := RightStripMeaning(t);
    j := i + n;
    assert s[i..j] == t[..n];
    forall k | j <= k < |s| ensures IsSpace(s[k]) {
      assert s[k] == t[k - i];
    }
    if n > 0 { assert t[0] == s[i] && t[n - 1] == s[j - 1]; }
  }

  lemma {:induction false} LeftStripMeaning(s: string) returns (i: nat)
    ensures i <= |s| && LeftStrip(s) == s[i..]
    ensures forall k :: 0 <= k < i ==> IsSpace(s[k])
    ensures i < |s| ==> !IsSpace(s[i])
  {
    i := 0;
    if s != [] && IsSpace(s[0]) {
      var n := LeftStripMeaning(s[1..]);
      i := n + 1;
      assert s[1..][n..] == s[i..];
      forall k | 0 <= k < i ensures IsSpace(s[k]) {
        if k > 0 { assert s[k] == s[1..][k - 1]; }
      }
    }
  }

  lemma {:induction false} RightStripMeaning(s: string) returns (n: nat)
    ensures n <= |s| && RightStrip(s) == s[..n]
    ensures forall k :: n <= k < |s| ==> IsSpace(s[k])
    ensures n > 0 ==> !IsSpace(s[n - 1])
  {
    n := |s|;
    if s != [] && IsSpace(s[|s| - 1]) {
      n := RightStripMeaning(s[..|s| - 1]);
    }
  }

  lemma {:induction false} ReplaceMeaning(s: string, was: char, becomes: char)
    ensures |Replace(s, was, becomes)| == |s|
    ensures forall k :: 0 <= k < |s| ==> Replace(s, was, becomes)[k] == if s[k] == was then becomes else s[k]
  {
    if s != [] {
      ReplaceMeaning(s[1..], was, becomes);
    }
  }

  lemma {:induction false} LowerMeaning(s: string)
    ensures |Lower(s)| == |s|
    ensures forall k :: 0 <= k < |s| ==> Lowered(s[k], Lower(s)[k])
  {
    if s != [] {
      LowerMeaning(s[1..]);
    }
  }

  predicate SpelledAs(c: char, small: char) {
    c == small || c as int + 32 == small as int
  }

  // A lower-case word is what exactly its spellings in either case come to.
  lemma LowerOfWord(s: string, word: string)
    requires forall k :: 0 <= k < |word| ==> 'a' <= word[k] <= 'z'
    ensures Lower(s) == word <==>
            |s| == |word| && forall k :: 0 <= k < |s| ==> SpelledAs(s[k], word[k])
  {
    LowerMeaning(s);
    SameWord(s, Lower(s), word);
  }

  predicate Lowered(c: char, low: char) {
    low as int == if 'A' <= c <= 'Z' then c as int - 'A' as int + 'a' as int else c as int
  }

  lemma SameWord(s: string, low: string, word: string)
    requires |low| == |s| && forall k :: 0 <= k < |s| ==> Lowered(s[k], low[k])
    requires forall k :: 0 <= k < |word| ==> 'a' <= word[k] <= 'z'
    ensures low == word <==> |s| == |word| && forall k :: 0 <= k < |s| ==> SpelledAs(s[k], word[k])
  {
    if |s| == |word| && forall k :: 0 <= k < |s| ==> SpelledAs(s[k], word[k]) {
      forall k | 0 <= k < |s| ensures low[k] == word[k] {
        assert Lowered(s[k], low[k]) && SpelledAs(s[k], word[k]);
      }
    }
  }

  lemma {:induction false} BeforeMeaning(s: string, separator: char)
    ensures separator !in Before(s, separator) && Before(s, separator) <= s
    ensures Before(s, separator) == s || s[|Before(s, separator)|] == separator
  {
    if s != [] && s[0] != separator {
      BeforeMeaning(s[1..], separator);
      var rest := Before(s[1..], separator);
      assert s == [s[0]] + s[1..] && s[1..][..|rest|] == rest;
      assert Before(s, separator) == [s[0]] + rest;
    }
  }

  lemma {:induction false} BeforeIs(s: string, separator: char, front: string)
    requires separator !in front && front <= s && (s == front || s[|front|] == separator)
    ensures Before(s, separator) == front
    decreases front
  {
    if front != [] {
      assert s[0] == front[0];
      BeforeIs(s[1..], separator, front[1..]);
    }
  }

  lemma {:induction false} BeforeLastMeaning(s: string, separator: char)
    ensures separator !in s ==> BeforeLast(s, separator) == s
    ensures separator in s ==>
              var front := BeforeLast(s, separator);
              |front| < |s| && front <= s && s[|front|] == separator && separator !in s[|front| + 1..]
  {
    if separator in s && s[|s| - 1] != separator {
      var n := |s| - 1;
      assert s == s[..n] + [s[n]];
      BeforeLastMeaning(s[..n], separator);
      var front := BeforeLast(s[..n], separator);
      assert s[|front| + 1..] == s[..n][|front| + 1..] + [s[n]];
    }
  }

  lemma {:induction false} BeforeLastOf(front: string, separator: char, last: string)
    requires separator !in last
    ensures BeforeLast(front + [separator] + last, separator) == front
    decreases last
  {
    var s := front + [separator] + last;
    assert s[|front|] == separator;
    if last == [] {
      assert s[..|s| - 1] == front;
    } else {
      var n := |last| - 1;
      assert s[|s| - 1] == last[n];
      assert s[..|s| - 1] == front + [separator] + last[..n];
      BeforeLastOf(front, separator, last[..n]);
    }
  }

  function JoinWith(parts: seq<string>, separator: char): string {
    if parts == [] then [] else if |parts| == 1 then parts[0] else parts[0] + [separator] + JoinWith(parts[1..], separator)
  }

  // The parts between the separators: joined again, they give the text.
  lemma {:induction false} SplitMeaning(s: string, separator: char)
    ensures Split(s, separator) != [] && JoinWith(Split(s, separator), separator) == s
    ensures forall part :: part in Split(s, separator) ==> separator !in part
  {
    if s != [] {
      SplitMeaning(s[1..], separator);
      var rest := Split(s[1..], separator);
      assert s == [s[0]] + s[1..];
      if s[0] == separator {
        var all := [""] + rest;
        assert all[1..] == rest;
        assert JoinWith(all, separator) == "" + [separator] + s[1..];
      } else {
        SplitJoins(s, separator, rest);
      }
    }
  }

  lemma SplitJoins(s: string, separator: char, rest: seq<string>)
    requires s != [] && rest != [] && JoinWith(rest, separator) == s[1..]
    ensures JoinWith([[s[0]] + rest[0]] + rest[1..], separator) == s
  {
    var all := [[s[0]] + rest[0]] + rest[1..];
    assert all[1..] == rest[1..];
    if |rest| == 1 {
      assert s == [s[0]] + s[1..];
    } else {
      assert s[1..] == rest[0] + [separator] + JoinWith(rest[1..], separator);
      assert s == [s[0]] + (rest[0] + [separator] + JoinWith(rest[1..], separator));
    }
  }

  lemma {:induction false} SplitConcat(a: string, separator: char, b: string)
    ensures Split(a + [separator] + b, separator) == Split(a, separator) + Split(b, separator)
  {
    var s := a + [separator] + b;
    if a == [] {
      assert s[1..] == b;
    } else {
      assert s[1..] == a[1..] + [separator] + b;
      SplitConcat(a[1..], separator, b);
      SplitMeaning(a[1..], separator);
    }
  }

  lemma {:induction false} SplitWhole(part: string, separator: char)
    requires separator !in part
    ensures Split(part, separator) == [part]
  {
    if part != [] {
      SplitWhole(part[1..], separator);
      assert part == [part[0]] + part[1..];
    }
  }

  // The text contains the part between two separators, or at its ends.
  ghost predicate HasPart(s: string, separator: char, part: string) {
    exists a, b :: IsPartBetween(s, separator, a, part, b)
  }

  predicate IsPartBetween(s: string, separator: char, a: string, part: string, b: string) {
    s == a + part + b && (a == "" || a[|a| - 1] == separator) && (b == "" || b[0] == separator)
  }

  lemma {:induction false} PartOfJoin(parts: seq<string>, separator: char, k: nat)
    requires k < |parts|
    ensures HasPart(JoinWith(parts, separator), separator, parts[k])
  {
    var s, part := JoinWith(parts, separator), parts[k];
    if |parts| == 1 {
      assert IsPartBetween(s, separator, "", part, "");
    } else if k == 0 {
      assert s == "" + part + ([separator] + JoinWith(parts[1..], separator));
      assert IsPartBetween(s, separator, "", part, [separator] + JoinWith(parts[1..], separator));
    } else {
      PartOfJoin(parts[1..], separator, k - 1);
      var a, b :| IsPartBetween(JoinWith(parts[1..], separator), separator, a, part, b);
      var front := parts[0] + [separator] + a;
      assert s == front + part + b;
      assert a != "" ==> front[|front| - 1] == a[|a| - 1];
      assert IsPartBetween(s, separator, front, part, b);
    }
  }

  // A part of a split text is what stands between two separators.
  lemma PartMeaning(s: string, separator: char, part: string)
    requires separator !in part
    ensures part in Split(s, separator) <==> HasPart(s, separator, part)
  {
    SplitMeaning(s, separator);
    if part in Split(s, separator) {
      var k :| 0 <= k < |Split(s, separator)| && Split(s, separator)[k] == part;
      PartOfJoin(Split(s, separator), separator, k);
    }
    if HasPart(s, separator, part) {
      var a, b :| IsPartBetween(s, separator, a, part, b);
      PartIsSplit(separator, a, part, b);
    }
  }

  lemma PartIsSplit(separator: char, a: string, part: string, b: string)
    requires separator !in part && IsPartBetween(a + part + b, separator, a, part, b)
    ensures part in Split(a + part + b, separator)
  {
    PartInFront(separator, part, b);
    var rest := part + b;
    assert a + part + b == a + rest;
    if a == "" {
      assert a + rest == rest;
    } else {
      var front := a[..|a| - 1];
      assert a == front + [separator];
      assert a + rest == front + [separator] + rest;
      SplitConcat(front, separator, rest);
    }
  }

  lemma PartInFront(separator: char, part: string, b: string)
    requires separator !in part && (b == "" || b[0] == separator)
    ensures part in Split(part + b, separator)
  {
    SplitWhole(part, separator);
    if b == "" {
      assert part + b == part;
    } else {
      assert part + b == part + [separator] + b[1..];
      SplitConcat(part, separator, b[1..]);
      assert Split(part + b, separator)[0] == part;
    }
  }
}
