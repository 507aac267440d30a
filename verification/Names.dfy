/** Object names and stamps: the DNS-1123 sanitizer, the run-scoped names of exec Jobs,
    and the two ways the operator reads a held-by stamp "<scenario>/<run>". */
module Names {

  // ---------- DNS-1123 labels ----------

  predicate LabelChar(c: char) {
    'a' <= c <= 'z' || '0' <= c <= '9' || c == '-'
  }

  /** The label form of section 2.1 of RFC 1123, as Kubernetes reads it. */
  predicate IsLabel(s: string) {
    && 1 <= |s| <= 63
    && (forall i | 0 <= i < |s| :: LabelChar(s[i]))
    && s[0] != '-' && s[|s| - 1] != '-'
  }

  /** Unicode lower-casing as far as it can produce a label character: the ASCII capitals,
      the Kelvin sign and the dotted capital I. Every other character stays outside [a-z0-9-]. */
  function LowerChar(c: char): char {
    if 'A' <= c <= 'Z' then c + 32 as char
    else if c == '\U{212A}' then 'k'
    else if c == '\U{130}' then 'i'
    else c
  }

  function Lower(s: string): string {
    if s == [] then [] else [LowerChar(s[0])] + Lower(s[1..])
  }

  /** Each maximal run of characters outside [a-z0-9-] becomes one '-'. */
  function Collapse(s: string, inRun: bool): string {
    if s == [] then []
    else if LabelChar(s[0]) then [s[0]] + Collapse(s[1..], false)
    else (if inRun then [] else ['-']) + Collapse(s[1..], true)
  }

  function TrimLeft(s: string): string {
    if s != [] && s[0] == '-' then TrimLeft(s[1..]) else s
  }

  function TrimRight(s: string): string {
    if s != [] && s[|s| - 1] == '-' then TrimRight(s[..|s| - 1]) else s
  }

  function Trim(s: string): string {
    TrimRight(TrimLeft(s))
  }

  /** Trimmed, and cut and trimmed again when it is too long. */
  function Fitted(c: string): string {
    var t := Trim(c);
    if |t| > 63 then Trim(t[..63]) else t
  }

  function SanitizeDNS1123(s: string): string {
    var u := Fitted(Collapse(Lower(s), false));
    if u == "" then "chaos" else u
  }

  predicate AllLabelChars(s: string) {
    forall i | 0 <= i < |s| :: LabelChar(s[i])
  }

  lemma {:induction false} CollapseChars(s: string, inRun: bool)
    ensures AllLabelChars(Collapse(s, inRun)) && |Collapse(s, inRun)| <= |s|
  {
    if s != [] {
      CollapseChars(s[1..], false);
      CollapseChars(s[1..], true);
    }
  }

  /** Trimming keeps a middle part of the string and leaves no '-' at either edge. */
  lemma {:induction false} TrimRightShape(s: string)
    ensures TrimRight(s) <= s
    ensures TrimRight(s) != [] ==> TrimRight(s)[|TrimRight(s)| - 1] != '-'
    ensures s != [] && s[0] != '-' ==> TrimRight(s) != []
  {
    if s != [] && s[|s| - 1] == '-' {
      TrimRightShape(s[..|s| - 1]);
    }
  }

  lemma {:induction false} TrimLeftShape(s: string)
    ensures AllLabelChars(s) ==> AllLabelChars(TrimLeft(s))
    ensures |TrimLeft(s)| <= |s|
    ensures TrimLeft(s) != [] ==> TrimLeft(s)[0] != '-'
  {
    if s != [] && s[0] == '-' {
      TrimLeftShape(s[1..]);
    }
  }

  lemma TrimShape(s: string)
    requires AllLabelChars(s)
    ensures AllLabelChars(Trim(s)) && |Trim(s)| <= |s|
    ensures Trim(s) != [] ==> Trim(s)[0] != '-' && Trim(s)[|Trim(s)| - 1] != '-'
    ensures s != [] && s[0] != '-' ==> Trim(s) != []
  {
    TrimLeftShape(s);
    TrimRightShape(TrimLeft(s));
  }

  /** Whatever the input, the result is a label. */
  lemma SanitizeYieldsLabel(s: string)
    ensures IsLabel(SanitizeDNS1123(s))
  {
    var c := Collapse(Lower(s), false);
    CollapseChars(Lower(s), false);
    TrimShape(c);
    var t := Trim(c);
    if |t| > 63 {
      TrimShape(t[..63]);
    }
  }

  lemma {:induction false} LabelCharsAreKept(s: string, inRun: bool)
    requires AllLabelChars(s)
    ensures Collapse(Lower(s), inRun) == s
  {
    if s != [] {
      LabelCharsAreKept(s[1..], false);
      assert LabelChar(s[0]);
      assert Lower(s)[1..] == Lower(s[1..]);
    }
  }

  /** The labels are exactly the strings the sanitizer leaves alone. */
  lemma SanitizeFixesExactlyLabels(s: string)
    ensures SanitizeDNS1123(s) == s <==> IsLabel(s)
  {
    if IsLabel(s) {
      LabelCharsAreKept(s, false);
    } else {
      SanitizeYieldsLabel(s);
    }
  }

  lemma SanitizeIsIdempotent(s: string)
    ensures SanitizeDNS1123(SanitizeDNS1123(s)) == SanitizeDNS1123(s)
  {
    SanitizeYieldsLabel(s);
    SanitizeFixesExactlyLabels(SanitizeDNS1123(s));
  }

  /** The letters and digits of a string, in order. */
  function Content(s: string): string {
    if s == [] then []
    else (if LabelChar(s[0]) && s[0] != '-' then [s[0]] else []) + Content(s[1..])
  }

  lemma {:induction false} ContentAppend(a: string, b: string)
    ensures Content(a + b) == Content(a) + Content(b)
  {
    if a == [] {
      assert a + b == b;
    } else {
      assert (a + b)[1..] == a[1..] + b;
      ContentAppend(a[1..], b);
    }
  }

  lemma {:induction false} CollapseKeepsContent(s: string, inRun: bool)
    ensures Content(Collapse(s, inRun)) == Content(s)
  {
    if s != [] {
      CollapseKeepsContent(s[1..], false);
      CollapseKeepsContent(s[1..], true);
      if LabelChar(s[0]) {
        assert Collapse(s, inRun) == [s[0]] + Collapse(s[1..], false);
      } else if inRun {
        assert Collapse(s, inRun) == Collapse(s[1..], true);
      } else {
        assert Collapse(s, inRun) == ['-'] + Collapse(s[1..], true);
      }
    }
  }

  lemma {:induction false} TrimKeepsContent(s: string)
    ensures Content(TrimLeft(s)) == Content(s) && Content(TrimRight(s)) == Content(s)
  {
    if s != [] && s[0] == '-' {
      TrimKeepsContent(s[1..]);
    }
    if s != [] && s[|s| - 1] == '-' {
      TrimKeepsContent(s[..|s| - 1]);
      ContentAppend(s[..|s| - 1], ['-']);
      assert s == s[..|s| - 1] + ['-'];
    }
  }

  lemma TrimmedContent(s: string)
    requires AllLabelChars(s)
    ensures Content(Trim(s)) == Content(s) && (Trim(s) != [] <==> Content(s) != [])
  {
    TrimKeepsContent(s);
    TrimKeepsContent(TrimLeft(s));
    TrimShape(s);
    if Trim(s) != [] {
      assert Content(Trim(s)) == [Trim(s)[0]] + Content(Trim(s)[1..]);
    }
  }

  lemma CutContent(t: string)
    requires |t| > 63 && AllLabelChars(t) && t[0] != '-'
    ensures Content(Trim(t[..63])) <= Content(t) && Trim(t[..63]) != []
  {
    TrimmedContent(t[..63]);
    TrimShape(t[..63]);
    ContentAppend(t[..63], t[63..]);
    assert t == t[..63] + t[63..];
  }

  lemma FittedContent(c: string)
    requires AllLabelChars(c)
    ensures Content(Fitted(c)) <= Content(c) && (|c| <= 63 ==> Content(Fitted(c)) == Content(c))
    ensures (Fitted(c) == "" <==> Content(c) == "") && (Fitted(c) != "" ==> Content(Fitted(c)) != "")
  {
    TrimmedContent(c);
    TrimShape(c);
    var t := Trim(c);
    if |t| > 63 {
      CutContent(t);
      TrimmedContent(t[..63]);
    }
  }

  lemma {:induction false} LowerKeepsLength(s: string)
    ensures |Lower(s)| == |s|
  {
    if s != [] {
      LowerKeepsLength(s[1..]);
    }
  }

  /** The name keeps the letters and digits of the input in small letters, in order: all of them if the
      input is no longer than a label may be, else those up to the cut; if there are none it is "chaos". */
  lemma SanitizeKeepsContent(s: string)
    ensures var all, kept := Content(Lower(s)), Content(SanitizeDNS1123(s));
            if all == "" then SanitizeDNS1123(s) == "chaos"
            else kept <= all && kept != "" && (|s| <= 63 ==> kept == all)
  {
    var c := Collapse(Lower(s), false);
    CollapseKeepsContent(Lower(s), false);
    CollapseChars(Lower(s), false);
    LowerKeepsLength(s);
    FittedContent(c);
  }

  /** The input in small letters, as far as these are ASCII. */
  function Small(s: string): string {
    if s == [] then [] else [if 'A' <= s[0] <= 'Z' then s[0] + 32 as char else s[0]] + Small(s[1..])
  }

  lemma {:induction false} LowerOfSmall(s: string)
    ensures Lower(Small(s)) == Lower(s)
  {
    if s != [] {
      LowerOfSmall(s[1..]);
    }
  }

  /** Case makes no difference. */
  lemma SanitizeIgnoresCase(s: string)
    ensures SanitizeDNS1123(Small(s)) == SanitizeDNS1123(s)
  {
    LowerOfSmall(s);
  }

  // ---------- run-scoped exec Job names ----------

  const EXEC_REVERT_SUFFIX := "-cleanup"
  const EXEC_RUN_SUFFIX_LEN := 8
  const MAX_BASE := 63 - 1 - EXEC_RUN_SUFFIX_LEN - |EXEC_REVERT_SUFFIX|

  /** The first eight hex digits of a run ID's hash; the hash itself is a parameter of the model. */
  predicate IsDigest(d: string) {
    && |d| == EXEC_RUN_SUFFIX_LEN
    && forall i | 0 <= i < |d| :: '0' <= d[i] <= '9' || 'a' <= d[i] <= 'f'
  }

  function ExecEnsureName(base: string, digest: string): string {
    var b := if |base| > MAX_BASE then base[..MAX_BASE] else base;
    SanitizeDNS1123(b + "-" + digest)
  }

  function ExecRevertName(base: string, digest: string): string {
    ExecEnsureName(base, digest) + EXEC_REVERT_SUFFIX
  }

  predicate EndsWith(s: string, tail: string) {
    |tail| <= |s| && s[|s| - |tail|..] == tail
  }

  lemma {:induction false} LowerKeepsTail(s: string, tail: string)
    requires AllLabelChars(tail)
    ensures Lower(s + tail) == Lower(s) + tail && |Lower(s)| == |s|
  {
    if s == [] {
      assert s + tail == tail;
      LowerOfLabelChars(tail);
    } else {
      assert (s + tail)[1..] == s[1..] + tail;
      LowerKeepsTail(s[1..], tail);
    }
  }

  lemma {:induction false} LowerOfLabelChars(s: string)
    requires AllLabelChars(s)
    ensures Lower(s) == s
  {
    if s != [] {
      assert LabelChar(s[0]);
      LowerOfLabelChars(s[1..]);
    }
  }

  lemma {:induction false} CollapseKeepsTail(s: string, tail: string, inRun: bool)
    requires AllLabelChars(tail)
    ensures Collapse(s + tail, inRun) == Collapse(s, inRun) + tail
  {
    if s == [] {
      assert s + tail == tail;
      LowerOfLabelChars(tail);
      LabelCharsAreKept(tail, inRun);
    } else {
      assert (s + tail)[1..] == s[1..] + tail;
      CollapseKeepsTail(s[1..], tail, false);
      CollapseKeepsTail(s[1..], tail, true);
    }
  }

  lemma {:induction false} TrimKeepsTail(s: string, tail: string)
    requires |tail| > 0 && tail[0] != '-' && tail[|tail| - 1] != '-'
    ensures exists front :: |front| <= |s| && Trim(s + tail) == front + tail
  {
    if s != [] && s[0] == '-' {
      assert (s + tail)[1..] == s[1..] + tail;
      TrimKeepsTail(s[1..], tail);
    } else {
      assert (s + tail)[0] != '-';
      assert Trim(s + tail) == s + tail;
    }
  }

  lemma EnsureNameShape(base: string, digest: string) returns (front: string)
    requires IsDigest(digest)
    ensures IsLabel(ExecEnsureName(base, digest)) && |front| <= MAX_BASE + 1
    ensures ExecEnsureName(base, digest) == front + digest
  {
    var b := (if |base| > MAX_BASE then base[..MAX_BASE] else base) + "-";
    LowerKeepsTail(b, digest);
    var c := Collapse(Lower(b), false);
    CollapseKeepsTail(Lower(b), digest, false);
    CollapseChars(Lower(b), false);
    TrimKeepsTail(c, digest);
    front :| |front| <= |c| && Trim(c + digest) == front + digest;
    SanitizeYieldsLabel(b + digest);
  }

  /** For every base name and run: both names are labels that fit in 63 characters, and the
      run's digest survives untouched at its place. */
  lemma ExecNamesCarryRun(base: string, digest: string)
    requires IsDigest(digest)
    ensures IsLabel(ExecEnsureName(base, digest)) && EndsWith(ExecEnsureName(base, digest), digest)
    ensures IsLabel(ExecRevertName(base, digest)) && EndsWith(ExecRevertName(base, digest), digest + EXEC_REVERT_SUFFIX)
  {
    var front := EnsureNameShape(base, digest);
    var name := ExecEnsureName(base, digest);
    assert name[|name| - |digest|..] == digest;
    var revert := ExecRevertName(base, digest);
    assert revert == front + (digest + EXEC_REVERT_SUFFIX);
    assert forall i | 0 <= i < |EXEC_REVERT_SUFFIX| :: LabelChar(EXEC_REVERT_SUFFIX[i]);
  }

  lemma TailIsUnique(name: string, tail: string, tail': string)
    requires EndsWith(name, tail) && EndsWith(name, tail') && |tail| == |tail'|
    ensures tail == tail'
  {
  }

  /** Names are shared, across any base names, only by runs with the same digest. */
  lemma ExecNamesDetermineRun(base: string, digest: string, base': string, digest': string)
    requires IsDigest(digest) && IsDigest(digest')
    requires ExecEnsureName(base, digest) == ExecEnsureName(base', digest')
             || ExecRevertName(base, digest) == ExecRevertName(base', digest')
    ensures digest == digest'
  {
    ExecNamesCarryRun(base, digest);
    ExecNamesCarryRun(base', digest');
    var n, n' := ExecEnsureName(base, digest), ExecEnsureName(base', digest');
    assert n == (n + EXEC_REVERT_SUFFIX)[..|n|] && n' == (n' + EXEC_REVERT_SUFFIX)[..|n'|];
    TailIsUnique(n, digest, digest');
  }

  lemma LastCharacter(name: string, tail: string)
    requires EndsWith(name, tail) && tail != []
    ensures name[|name| - 1] == tail[|tail| - 1]
  {
    assert name[|name| - |tail|..][|tail| - 1] == name[|name| - 1];
  }

  /** A name that ends in a digest is no name that ends in "-cleanup": 'p' is no hex digit. */
  lemma DigestIsNoCleanup(name: string, digest: string, digest': string)
    requires IsDigest(digest) && EndsWith(name, digest)
    ensures !EndsWith(name, digest' + EXEC_REVERT_SUFFIX)
  {
    LastCharacter(name, digest);
    var tail := digest' + EXEC_REVERT_SUFFIX;
    assert tail[|tail| - 1] == 'p';
    if EndsWith(name, tail) {
      LastCharacter(name, tail);
    }
  }

  /** No ensure name equals any revert name. */
  lemma ExecPhasesNeverCollide(base: string, digest: string, base': string, digest': string)
    requires IsDigest(digest) && IsDigest(digest')
    ensures ExecEnsureName(base, digest) != ExecRevertName(base', digest')
  {
    ExecNamesCarryRun(base, digest);
    ExecNamesCarryRun(base', digest');
    DigestIsNoCleanup(ExecEnsureName(base, digest), digest, digest');
  }

  /** Within one run, base names that are labels of at most 46 characters can be read back. */
  lemma ExecNamesDetermineBase(base: string, base': string, digest: string)
    requires IsDigest(digest)
    requires IsLabel(base) && |base| <= 46 && IsLabel(base') && |base'| <= 46
    requires ExecEnsureName(base, digest) == ExecEnsureName(base', digest)
             || ExecRevertName(base, digest) == ExecRevertName(base', digest)
    ensures base == base'
  {
    LabelBaseIsKept(base, digest);
    LabelBaseIsKept(base', digest);
    var n, n' := ExecEnsureName(base, digest), ExecEnsureName(base', digest);
    assert n == (n + EXEC_REVERT_SUFFIX)[..|n|] && n' == (n' + EXEC_REVERT_SUFFIX)[..|n'|];
    assert base == n[..|n| - 9] && base' == n'[..|n'| - 9];
  }

  lemma LabelBaseIsKept(base: string, digest: string)
    requires IsDigest(digest) && IsLabel(base) && |base| <= MAX_BASE
    ensures ExecEnsureName(base, digest) == base + "-" + digest
  {
    SanitizeFixesExactlyLabels(base + "-" + digest);
  }

  // ---------- stamps ----------

  /** The part of a string before its first separator, or all of it when there is none. */
  function CutBefore(s: string, sep: char): string {
    if s == [] || s[0] == sep then [] else [s[0]] + CutBefore(s[1..], sep)
  }

  /** For a name without the separator, the prefix test agrees with cutting at the first separator. */
  lemma {:induction false} PrefixIffCut(stamp: string, name: string, sep: char)
    requires sep !in name
    ensures name + [sep] <= stamp <==> sep in stamp && CutBefore(stamp, sep) == name
  {
    if name == [] {
      assert name + [sep] == [sep];
    } else if stamp != [] {
      assert name[0] != sep;
      assert sep !in name[1..];
      PrefixIffCut(stamp[1..], name[1..], sep);
      assert name + [sep] == [name[0]] + (name[1..] + [sep]);
      assert stamp == [stamp[0]] + stamp[1..];
    }
  }

  /** Two such names can share a stamp only if they are the same name. */
  lemma PrefixDeterminesName(stamp: string, name: string, name': string, sep: char)
    requires sep !in name && sep !in name'
    requires name + [sep] <= stamp && name' + [sep] <= stamp
    ensures name == name'
  {
    PrefixIffCut(stamp, name, sep);
    PrefixIffCut(stamp, name', sep);
  }
}
