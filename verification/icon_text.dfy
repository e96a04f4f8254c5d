/** The string operations the icon script applies to prompt-file lines:
    JavaScript's whitespace class, lower-casing, trimming, the filename slug,
    the removal of a trailing parenthesised remark, and splitting on "\n". */
module IconText {
  import opened GameTypes

  // ---- Character classes ----

  /** JavaScript's `\s` and the characters `trim` removes: the white space
      and line terminator code points of ECMAScript. */
  predicate IsSpace(c: char)
  {
    var n := c as int;
    n == 0x09 || n == 0x0A || n == 0x0B || n == 0x0C || n == 0x0D || n == 0x20 || n == 0xA0
    || n == 0x1680 || (0x2000 <= n <= 0x200A) || n == 0x2028 || n == 0x2029
    || n == 0x202F || n == 0x205F || n == 0x3000 || n == 0xFEFF
  }

  /** The characters `.` does not match. */
  predicate IsLineTerminator(c: char)
  {
    c == '\n' || c == '\r' || c as int == 0x2028 || c as int == 0x2029
  }

  predicate IsDigit(c: char)
  {
    '0' <= c <= '9'
  }

  /** The characters a slug keeps: [a-z0-9-]. */
  predicate IsSlugChar(c: char)
  {
    ('a' <= c <= 'z') || IsDigit(c) || c == '-'
  }

  predicate AllSlugChars(s: string)
  {
    forall i :: 0 <= i < |s| ==> IsSlugChar(s[i])
  }

  // ---- Lower-casing ----

  predicate IsUpper(c: char)
  {
    'A' <= c <= 'Z'
  }

  /** Lower-casing of one character; only ASCII letters change. */
  function LowerChar(c: char): (r: char)
    ensures IsUpper(c) ==> 'a' <= r <= 'z' && r as int == c as int + 32
    ensures !IsUpper(c) ==> r == c
  {
    if IsUpper(c) then (c as int + 32) as char else c
  }

  function ToLower(s: string): (r: string)
    ensures |r| == |s|
  {
    if |s| == 0 then [] else [LowerChar(s[0])] + ToLower(s[1..])
  }

  /** Lower-casing works character by character. */
  lemma {:induction false} ToLowerMeaning(s: string)
    ensures forall i :: 0 <= i < |s| ==> ToLower(s)[i] == LowerChar(s[i])
  {
    if |s| > 0 {
      ToLowerMeaning(s[1..]);
      assert forall i :: 1 <= i < |s| ==> ToLower(s)[i] == ToLower(s[1..])[i - 1];
    }
  }

  // ---- Trimming ----

  /** The end of the run of white space that starts at `k`. */
  function SpaceRunEnd(s: string, k: nat): (n: nat)
    requires k <= |s|
    ensures k <= n <= |s|
    decreases |s| - k
  {
    if k < |s| && IsSpace(s[k]) then SpaceRunEnd(s, k + 1) else k
  }

  /** The run is all white space and is followed by other text or the end. */
  lemma {:induction false} SpaceRunEndMeaning(s: string, k: nat)
    requires k <= |s|
    ensures forall i :: k <= i < SpaceRunEnd(s, k) ==> IsSpace(s[i])
    ensures SpaceRunEnd(s, k) < |s| ==> !IsSpace(s[SpaceRunEnd(s, k)])
    decreases |s| - k
  {
    if k < |s| && IsSpace(s[k]) {
      SpaceRunEndMeaning(s, k + 1);
    }
  }

  /** A run of white space that ends at other text or the end is the run. */
  lemma {:induction false} SpaceRunEndUnique(s: string, k: nat, n: nat)
    requires k <= n <= |s|
    requires forall i :: k <= i < n ==> IsSpace(s[i])
    requires n < |s| ==> !IsSpace(s[n])
    ensures SpaceRunEnd(s, k) == n
    decreases n - k
  {
    if k < n {
      SpaceRunEndUnique(s, k + 1, n);
    }
  }

  /** Where the trailing white space of `s` begins. */
  function ContentEnd(s: string): (e: nat)
    ensures e <= |s|
  {
    if |s| > 0 && IsSpace(s[|s| - 1]) then ContentEnd(s[..|s| - 1]) else |s|
  }

  /** Everything from the end on is white space, and the character before
      it is not. */
  lemma {:induction false} ContentEndMeaning(s: string)
    ensures forall i :: ContentEnd(s) <= i < |s| ==> IsSpace(s[i])
    ensures ContentEnd(s) > 0 ==> !IsSpace(s[ContentEnd(s) - 1])
  {
    if |s| > 0 && IsSpace(s[|s| - 1]) {
      var t := s[..|s| - 1];
      ContentEndMeaning(t);
      assert forall i :: 0 <= i < |t| ==> t[i] == s[i];
    }
  }

  /** String.prototype.trim: the part between the leading and the trailing
      white space, empty when `s` is all white space. */
  function Trim(s: string): string
  {
    var a, e := SpaceRunEnd(s, 0), ContentEnd(s);
    if a < e then s[a..e] else []
  }

  /** Trimming yields a piece of `s` with white space on neither end, empty
      only when `s` is all white space, and trimming again changes nothing. */
  lemma TrimMeaning(s: string)
    ensures exists i, j :: 0 <= i <= j <= |s| && Trim(s) == s[i..j]
    ensures |Trim(s)| > 0 ==> !IsSpace(Trim(s)[0]) && !IsSpace(Trim(s)[|Trim(s)| - 1])
    ensures |Trim(s)| == 0 <==> forall i :: 0 <= i < |s| ==> IsSpace(s[i])
    ensures Trim(Trim(s)) == Trim(s)
  {
    var a, e := SpaceRunEnd(s, 0), ContentEnd(s);
    SpaceRunEndMeaning(s, 0);
    ContentEndMeaning(s);
    var t := Trim(s);
    if a < e {
      assert t == s[a..e];
      assert t[0] == s[a] && t[|t| - 1] == s[e - 1];
      SpaceRunEndUnique(t, 0, 0);
      assert ContentEnd(t) == |t|;
      assert t[0..|t|] == t;
    } else {
      assert t == s[0..0];
    }
  }

  // ---- The slug ----

  /** `.replace(/\s+/g, "-")`: every maximal run of white space becomes one "-". */
  function CollapseSpace(s: string): (r: string)
    ensures forall i :: 0 <= i < |r| ==> !IsSpace(r[i])
    decreases |s|
  {
    if |s| == 0 then []
    else if IsSpace(s[0]) then "-" + CollapseSpace(s[SpaceRunEnd(s, 0)..])
    else [s[0]] + CollapseSpace(s[1..])
  }

  /** `.replace(/[^a-z0-9-]/g, "")`: every character outside [a-z0-9-] is dropped. */
  function KeepSlugChars(s: string): (r: string)
    ensures AllSlugChars(r)
    ensures |r| <= |s|
  {
    if |s| == 0 then []
    else if IsSlugChar(s[0]) then [s[0]] + KeepSlugChars(s[1..])
    else KeepSlugChars(s[1..])
  }

  /** Lower-case, white-space runs to "-", then only [a-z0-9-] kept. */
  function Slug(name: string): (r: string)
    ensures AllSlugChars(r)
  {
    KeepSlugChars(CollapseSpace(ToLower(name)))
  }

  lemma {:induction false} LowerKeepsSlugChars(s: string)
    requires AllSlugChars(s)
    ensures ToLower(s) == s
  {
    LowerKeepsLower(s);
  }

  /** A string without upper-case letters is its own lower case. */
  lemma {:induction false} LowerKeepsLower(s: string)
    requires forall i :: 0 <= i < |s| ==> !IsUpper(s[i])
    ensures ToLower(s) == s
  {
    if |s| > 0 {
      LowerKeepsLower(s[1..]);
    }
  }

  lemma {:induction false} CollapseKeepsSlugChars(s: string)
    requires AllSlugChars(s)
    ensures CollapseSpace(s) == s
  {
    if |s| > 0 {
      assert !IsSpace(s[0]);
      CollapseKeepsSlugChars(s[1..]);
    }
  }

  lemma {:induction false} KeepKeepsSlugChars(s: string)
    requires AllSlugChars(s)
    ensures KeepSlugChars(s) == s
  {
    if |s| > 0 {
      KeepKeepsSlugChars(s[1..]);
    }
  }

  /** A string made of [a-z0-9-] is its own slug, so slugging is idempotent. */
  lemma SlugFixesSlugs(s: string)
    requires AllSlugChars(s)
    ensures Slug(s) == s
  {
    LowerKeepsSlugChars(s);
    CollapseKeepsSlugChars(s);
    KeepKeepsSlugChars(s);
  }

  lemma SlugIdempotent(name: string)
    ensures Slug(Slug(name)) == Slug(name)
  {
    SlugFixesSlugs(Slug(name));
  }

  /** Text without white space has nothing to collapse. */
  lemma {:induction false} CollapseWithoutSpace(s: string)
    requires forall i :: 0 <= i < |s| ==> !IsSpace(s[i])
    ensures CollapseSpace(s) == s
  {
    if |s| > 0 {
      CollapseWithoutSpace(s[1..]);
    }
  }

  /** Every ASCII letter and digit of the name survives, lower-cased and in
      order: the slug of a name without white space is its lower-cased
      [a-z0-9-] characters. */
  lemma SlugWithoutSpace(name: string)
    requires forall i :: 0 <= i < |name| ==> !IsSpace(name[i])
    ensures Slug(name) == KeepSlugChars(ToLower(name))
  {
    var l := ToLower(name);
    ToLowerMeaning(name);
    forall i | 0 <= i < |l|
      ensures !IsSpace(l[i])
    {
      assert l[i] == LowerChar(name[i]);
    }
    CollapseWithoutSpace(l);
  }

  /** A single space between two words becomes one "-". */
  lemma SlugJoinsWords(a: string, b: string)
    requires |a| > 0 && |b| > 0 && AllSlugChars(a) && AllSlugChars(b)
    ensures Slug(a + " " + b) == a + "-" + b
  {
    var s := a + (" " + b);
    assert a + " " + b == s;
    LowerKeepsWords(a, b);
    CollapseSingleSpace(b);
    CollapseAppend(a, " " + b);
    CollapseKeepsSlugChars(a);
    assert AllSlugChars(a + ("-" + b));
    KeepKeepsSlugChars(a + ("-" + b));
  }

  /** Slug characters and a space are already lower case. */
  lemma LowerKeepsWords(a: string, b: string)
    requires AllSlugChars(a) && AllSlugChars(b)
    ensures ToLower(a + (" " + b)) == a + (" " + b)
  {
    var s := a + (" " + b);
    forall i | 0 <= i < |s|
      ensures !IsUpper(s[i])
    {
      if i < |a| {
        assert s[i] == a[i];
      } else if i > |a| {
        assert s[i] == b[i - |a| - 1];
      }
    }
    LowerKeepsLower(s);
  }

  /** One space before a slug becomes one hyphen. */
  lemma CollapseSingleSpace(b: string)
    requires |b| > 0 && AllSlugChars(b)
    ensures CollapseSpace(" " + b) == "-" + b
  {
    assert (" " + b)[1] == b[0];
    assert SpaceRunEnd(" " + b, 1) == 1;
    assert (" " + b)[1..] == b;
    CollapseKeepsSlugChars(b);
  }

  lemma {:induction false} CollapseAppend(a: string, b: string)
    requires forall i :: 0 <= i < |a| ==> !IsSpace(a[i])
    ensures CollapseSpace(a + b) == a + CollapseSpace(b)
  {
    if |a| > 0 {
      assert (a + b)[0] == a[0];
      assert (a + b)[1..] == a[1..] + b;
      CollapseAppend(a[1..], b);
    } else {
      assert a + b == b;
    }
  }

  // ---- The trailing parenthesised remark ----

  /** Whether `\s*\([^)]*\)\s*$` matches from position `k`: white space
      from `k`, then "(", then anything but ")" up to the last character of
      `s` that is not white space, which is ")". */
  predicate ParenTailAt(s: string, k: nat)
    requires k <= |s|
  {
    var a, e := SpaceRunEnd(s, k), ContentEnd(s);
    a + 2 <= e && s[a] == '(' && s[e - 1] == ')' && ')' !in s[a + 1..e - 1]
  }

  /** The leftmost position from `i` on where the remark pattern matches. */
  function FirstParenTail(s: string, i: nat): (r: Option<nat>)
    requires i <= |s|
    ensures r.Some? ==> i <= r.value <= |s| && ParenTailAt(s, r.value)
    ensures r.Some? ==> forall k :: i <= k < r.value ==> !ParenTailAt(s, k)
    ensures r.None? ==> forall k :: i <= k <= |s| ==> !ParenTailAt(s, k)
    decreases |s| - i
  {
    if ParenTailAt(s, i) then Some(i)
    else if i == |s| then None
    else FirstParenTail(s, i + 1)
  }

  /** `.replace(/\s*\([^)]*\)\s*$/, "")`: the leftmost match, if any, is cut off. */
  function StripParenSuffix(s: string): string
  {
    match FirstParenTail(s, 0)
    case Some(i) => s[..i]
    case None => s
  }

  /** What the strip removes: nothing when no position matches; otherwise
      everything from the leftmost matching position, leaving a prefix of `s`. */
  lemma StripParenSuffixMeaning(s: string)
    ensures |StripParenSuffix(s)| <= |s| && StripParenSuffix(s) == s[..|StripParenSuffix(s)|]
    ensures StripParenSuffix(s) != s ==> ParenTailAt(s, |StripParenSuffix(s)|)
    ensures (forall k :: 0 <= k <= |s| ==> !ParenTailAt(s, k)) ==> StripParenSuffix(s) == s
    ensures forall k :: 0 <= k < |StripParenSuffix(s)| ==> !ParenTailAt(s, k)
  {
    var r := FirstParenTail(s, 0);
    if r.Some? {
      assert s[..r.value] == StripParenSuffix(s);
    }
  }

  /** A name ending in a remark such as " (32x32 pixels)" loses it. */
  lemma StripsRemark(name: string, remark: string)
    requires |name| > 0 && !IsSpace(name[|name| - 1]) && name[|name| - 1] != ')' && '(' !in name
    requires ')' !in remark
    ensures StripParenSuffix(name + " (" + remark + ")") == name
  {
    var s := name + " (" + remark + ")";
    var n := |name|;
    RemarkMatchesAt(name, remark);
    NoMatchInsideName(name, " (" + remark + ")");
    assert s == name + (" (" + remark + ")");
    assert FirstParenTail(s, 0) == Some(n);
    assert s[..n] == name;
  }

  /** The remark pattern matches where the space before the remark begins. */
  lemma RemarkMatchesAt(name: string, remark: string)
    requires ')' !in remark
    ensures |name| <= |name + " (" + remark + ")"| && ParenTailAt(name + " (" + remark + ")", |name|)
  {
    var s := name + " (" + remark + ")";
    var n := |name|;
    assert s[n] == ' ' && s[n + 1] == '(' && s[|s| - 1] == ')';
    assert ContentEnd(s) == |s|;
    assert SpaceRunEnd(s, n + 1) == n + 1;
    assert s[n + 2..|s| - 1] == remark;
  }

  /** No match starts inside a name that has no "(" and does not end in white space. */
  lemma NoMatchInsideName(name: string, rest: string)
    requires |name| > 0 && !IsSpace(name[|name| - 1]) && '(' !in name
    ensures forall k :: 0 <= k < |name| ==> !ParenTailAt(name + rest, k)
  {
    var s := name + rest;
    var n := |name|;
    forall k | 0 <= k < n
      ensures !ParenTailAt(s, k)
    {
      var a := SpaceRunEnd(s, k);
      SpaceRunEndMeaning(s, k);
      assert s[n - 1] == name[n - 1];
      assert a < n;
      assert s[a] == name[a];
    }
  }

  // ---- Lines ----

  /** `content.split("\n")`: the pieces between newlines, at least one. */
  function SplitLines(s: string): (r: seq<string>)
    ensures |r| >= 1
    ensures forall k :: 0 <= k < |r| ==> '\n' !in r[k]
  {
    if |s| == 0 then [""]
    else
      var rest := SplitLines(s[1..]);
      if s[0] == '\n' then [""] + rest
      else [[s[0]] + rest[0]] + rest[1..]
  }

  /** The pieces put back together with "\n" between them. */
  function JoinLines(lines: seq<string>): string
    requires |lines| >= 1
  {
    if |lines| == 1 then lines[0] else lines[0] + "\n" + JoinLines(lines[1..])
  }

  /** Splitting and joining are inverse: joining the pieces gives the text
      back, and splitting a join of newline-free pieces gives the pieces. */
  lemma {:induction false} JoinSplit(s: string)
    ensures JoinLines(SplitLines(s)) == s
  {
    if |s| > 0 {
      JoinSplit(s[1..]);
      var rest := SplitLines(s[1..]);
      if s[0] == '\n' {
        assert SplitLines(s)[1..] == rest;
      } else {
        var r := SplitLines(s);
        assert r[0] == [s[0]] + rest[0];
        if |rest| > 1 {
          assert r[1..] == rest[1..];
        }
      }
    }
  }

  lemma {:induction false} SplitJoin(lines: seq<string>)
    requires |lines| >= 1
    requires forall k :: 0 <= k < |lines| ==> '\n' !in lines[k]
    ensures SplitLines(JoinLines(lines)) == lines
  {
    if |lines| == 1 {
      SplitWithoutNewline(lines[0]);
    } else {
      SplitJoin(lines[1..]);
      SplitPrefix(lines[0], JoinLines(lines[1..]));
    }
  }

  lemma {:induction false} SplitWithoutNewline(s: string)
    requires '\n' !in s
    ensures SplitLines(s) == [s]
  {
    if |s| > 0 {
      assert '\n' !in s[1..] by {
        forall k | 0 <= k < |s[1..]|
          ensures s[1..][k] != '\n'
        {
          assert s[1..][k] == s[k + 1];
        }
      }
      SplitWithoutNewline(s[1..]);
      assert [s[0]] + s[1..] == s;
    }
  }

  lemma {:induction false} SplitPrefix(a: string, b: string)
    requires '\n' !in a
    ensures SplitLines(a + "\n" + b) == [a] + SplitLines(b)
  {
    if |a| == 0 {
      assert a + "\n" + b == "\n" + b;
      assert ("\n" + b)[1..] == b;
    } else {
      var s := a + "\n" + b;
      assert s[0] == a[0];
      assert s[1..] == a[1..] + "\n" + b;
      assert '\n' !in a[1..] by {
        forall k | 0 <= k < |a[1..]|
          ensures a[1..][k] != '\n'
        {
          assert a[1..][k] == a[k + 1];
        }
      }
      SplitPrefix(a[1..], b);
      assert [a[0]] + a[1..] == a;
    }
  }
}
