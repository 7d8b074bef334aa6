/**
 * Choosing the compound-database lookup key from the user's message, as the
 * first lines of `fetchPubChemData` do: `/cid\s*(\d+)/i` is tried before
 * `/nome\s*([a-zA-Z]+)/i`, and when neither matches there is no request at all,
 * only a validation message.
 */
module PubChemKey {
  import opened Options
  import opened Text

  /** The character classes the two patterns use: `\s`, `\d` and `[a-zA-Z]`. */
  datatype CharClass = Space | Digits | Letters

  predicate InClass(c: char, cls: CharClass)
  {
    match cls
    case Space => IsJsSpace(c)
    case Digits => IsDigit(c)
    case Letters => IsAsciiLetter(c)
  }

  /**
   * A case-insensitive pattern of the shape `keyword\s*(class+)`. The keyword is
   * written in lower-case ASCII, so comparing it with the lowered input is exactly
   * the `i` flag's comparison.
   */
  datatype Pattern = Pattern(keyword: string, capture: CharClass)

  const CidPattern := Pattern("cid", Digits)
  const NamePattern := Pattern("nome", Letters)

  /** The end of the longest run of `cls` characters starting at `i`: a greedy `*`. */
  function RunEnd(s: string, i: nat, cls: CharClass): (j: nat)
    requires i <= |s|
    ensures i <= j <= |s|
    ensures forall k | i <= k < j :: InClass(s[k], cls)
    ensures j == |s| || !InClass(s[j], cls)
    decreases |s| - i
  {
    if i < |s| && InClass(s[i], cls) then RunEnd(s, i + 1, cls) else i
  }

  /** The capture group of `p` when `p` matches starting exactly at index `i` of `s`. */
  function MatchAt(s: string, i: nat, p: Pattern): Option<string>
    requires i <= |s|
  {
    var k := i + |p.keyword|;
    if k <= |s| && Lower(s[i..k]) == p.keyword then
      var w := RunEnd(s, k, Space);
      var e := RunEnd(s, w, p.capture);
      if w < e then Some(s[w..e]) else None
    else None
  }

  /**
   * After the keyword ends at `k`: `\s*` up to `w`, then the capture `v`, one or
   * more class characters that the next character of `s` does not extend (the `+`
   * is greedy).
   */
  ghost predicate SpacesThenCapture(s: string, k: nat, w: nat, cls: CharClass, v: string)
  {
    && k <= w && w + |v| <= |s|
    && (forall j | k <= j < w :: IsJsSpace(s[j]))
    && s[w..w + |v|] == v && |v| > 0
    && (forall j | 0 <= j < |v| :: InClass(v[j], cls))
    && (w + |v| == |s| || !InClass(s[w + |v|], cls))
  }

  /** What the regular expression means: at `i` the keyword in any case, then `\s*(class+)`. */
  ghost predicate MatchesAt(s: string, i: nat, p: Pattern, v: string)
  {
    var k := i + |p.keyword|;
    && k <= |s|
    && Lower(s[i..k]) == p.keyword
    && exists w: nat :: SpacesThenCapture(s, k, w, p.capture, v)
  }

  /** `p` matches nowhere in `s`. */
  ghost predicate NoMatch(s: string, p: Pattern)
  {
    forall i: nat, v | i <= |s| :: !MatchesAt(s, i, p, v)
  }

  /** `v` is the capture of the leftmost match of `p` in `s`. */
  ghost predicate LeftmostMatch(s: string, p: Pattern, v: string)
  {
    exists i: nat | i <= |s| ::
      MatchesAt(s, i, p, v) && forall j: nat, u | j < i :: !MatchesAt(s, j, p, u)
  }

  /** The capture class is not `\s` itself. */
  predicate Separated(p: Pattern)
  {
    p.capture != Space
  }

  /** A run that stops where the class stops is the greedy run. */
  lemma {:induction false} RunEndUnique(s: string, i: nat, j: nat, cls: CharClass)
    requires i <= j <= |s|
    requires forall k | i <= k < j :: InClass(s[k], cls)
    requires j == |s| || !InClass(s[j], cls)
    ensures RunEnd(s, i, cls) == j
    decreases j - i
  {
    if i < j {
      RunEndUnique(s, i + 1, j, cls);
    }
  }

  /** The capture classes never overlap `\s`, so the greedy `\s*` cannot eat into a capture. */
  lemma CaptureIsNotSpace(c: char, p: Pattern)
    requires Separated(p) && InClass(c, p.capture)
    ensures !IsJsSpace(c)
  {
  }

  /** What the matcher captures is a match of the regular expression. */
  lemma MatchAtSound(s: string, i: nat, p: Pattern, v: string)
    requires i <= |s| && MatchAt(s, i, p) == Some(v)
    ensures MatchesAt(s, i, p, v)
  {
    var k := i + |p.keyword|;
    var w := RunEnd(s, k, Space);
    var e := RunEnd(s, w, p.capture);
    assert v == s[w..e];
    assert SpacesThenCapture(s, k, w, p.capture, v);
  }

  /** A match of the regular expression is what the matcher captures. */
  lemma MatchAtComplete(s: string, i: nat, p: Pattern, v: string)
    requires i <= |s| && Separated(p) && MatchesAt(s, i, p, v)
    ensures MatchAt(s, i, p) == Some(v)
  {
    var k := i + |p.keyword|;
    var w: nat :| SpacesThenCapture(s, k, w, p.capture, v);
    assert s[w] == v[0];
    CaptureIsNotSpace(s[w], p);
    RunEndUnique(s, k, w, Space);
    forall j | w <= j < w + |v| ensures InClass(s[j], p.capture) {
      assert s[j] == v[j - w];
    }
    RunEndUnique(s, w, w + |v|, p.capture);
  }

  /** The matcher agrees with the reading of the regular expression, in both directions. */
  lemma MatchAtMeaning(s: string, i: nat, p: Pattern, v: string)
    requires i <= |s| && Separated(p)
    ensures MatchAt(s, i, p) == Some(v) <==> MatchesAt(s, i, p, v)
  {
    if MatchAt(s, i, p) == Some(v) {
      MatchAtSound(s, i, p, v);
    }
    if MatchesAt(s, i, p, v) {
      MatchAtComplete(s, i, p, v);
    }
  }

  /** The pattern cannot match where the first two characters already differ from its keyword. */
  lemma NoMatchAt(s: string, i: nat, p: Pattern)
    requires i <= |s| && |p.keyword| >= 2
    requires i + 2 > |s| || LowerChar(s[i]) != p.keyword[0] || LowerChar(s[i + 1]) != p.keyword[1]
    ensures MatchAt(s, i, p).None?
  {
    var k := i + |p.keyword|;
    if k <= |s| {
      assert Lower(s[i..k])[0] == LowerChar(s[i]);
      assert Lower(s[i..k])[1] == LowerChar(s[i + 1]);
    }
  }

  /** The index of the leftmost match of `p` at or after `i`, scanning as `s.match(p)` does. */
  function FirstMatchIndex(s: string, i: nat, p: Pattern): (r: Option<nat>)
    requires i <= |s|
    ensures r.Some? ==> i <= r.value <= |s| && MatchAt(s, r.value, p).Some?
    ensures r.Some? ==> forall k: nat | i <= k < r.value :: MatchAt(s, k, p).None?
    ensures r.None? ==> forall j: nat | i <= j <= |s| :: MatchAt(s, j, p).None?
    decreases |s| - i
  {
    if MatchAt(s, i, p).Some? then Some(i)
    else if i == |s| then None
    else FirstMatchIndex(s, i + 1, p)
  }

  /** `s.match(p)[1]`: the capture group of the leftmost match, if any. */
  function FirstMatch(s: string, p: Pattern): Option<string>
  {
    match FirstMatchIndex(s, 0, p)
    case Some(i) => MatchAt(s, i, p)
    case None => None
  }

  /** The scan passes over every position whose first two characters already differ from the keyword. */
  lemma {:induction false} ScanSkips(s: string, i: nat, j: nat, p: Pattern)
    requires i <= j < |s| && |p.keyword| >= 2
    requires forall k | i <= k < j :: LowerChar(s[k]) != p.keyword[0] || LowerChar(s[k + 1]) != p.keyword[1]
    ensures FirstMatchIndex(s, i, p) == FirstMatchIndex(s, j, p)
    decreases j - i
  {
    if i < j {
      NoMatchAt(s, i, p);
      ScanSkips(s, i + 1, j, p);
    }
  }

  /** The key a compound lookup is made by. */
  datatype LookupKey = ByCid(cid: string) | ByName(name: string)

  /** The key selection of `fetchPubChemData`; `None` means no request is made. */
  function SelectLookupKey(message: string): Option<LookupKey>
  {
    match FirstMatch(message, CidPattern)
    case Some(cid) => Some(ByCid(cid))
    case None =>
      match FirstMatch(message, NamePattern)
      case Some(name) => Some(ByName(name))
      case None => None
  }

  /** The compound-database endpoint for a key. */
  function LookupUrl(key: LookupKey): string
  {
    match key
    case ByCid(cid) => CompoundBase + "CID/" + cid + JsonSuffix
    case ByName(name) => CompoundBase + "name/" + name + JsonSuffix
  }

  /** The compound endpoint's common prefix. */
  const CompoundBase := "https://pubchem.ncbi.nlm.nih.gov/rest/pug/compound/"

  /** The output format requested from the compound endpoint. */
  const JsonSuffix := "/JSON"

  /** Different keys give different endpoints: the URL determines the key. */
  lemma {:induction false} LookupUrlDeterminesKey(a: LookupKey, b: LookupKey)
    requires LookupUrl(a) == LookupUrl(b)
    ensures a == b
  {
    var u := LookupUrl(a);
    var n := |CompoundBase|;
    assert u[n] == (if a.ByCid? then 'C' else 'n');
    assert u[n] == (if b.ByCid? then 'C' else 'n');
    match a
    case ByCid(x) =>
      var y := b.cid;
      assert u[n + 4..|u| - 5] == x;
      assert u[n + 4..|u| - 5] == y;
    case ByName(x) =>
      var y := b.name;
      assert u[n + 5..|u| - 5] == x;
      assert u[n + 5..|u| - 5] == y;
  }

  /** A selected CID is a non-empty run of digits, a selected name a non-empty run of ASCII letters. */
  lemma LookupKeyShape(message: string)
    ensures match SelectLookupKey(message)
      case Some(ByCid(cid)) => |cid| > 0 && forall i | 0 <= i < |cid| :: IsDigit(cid[i])
      case Some(ByName(name)) => |name| > 0 && forall i | 0 <= i < |name| :: IsAsciiLetter(name[i])
      case None => true
  {
    FirstMatchMeaning(message, CidPattern);
    FirstMatchMeaning(message, NamePattern);
  }

  /** Shown instead of a lookup when the message names neither a CID nor a name. */
  const InvalidKeyMessage := "Por favor, forneça um CID ou nome válido."

  /** The leftmost match found by scanning is the leftmost match of the regular expression. */
  lemma FirstMatchMeaning(s: string, p: Pattern)
    requires Separated(p)
    ensures match FirstMatch(s, p)
      case Some(v) => LeftmostMatch(s, p, v)
      case None => NoMatch(s, p)
  {
    match FirstMatchIndex(s, 0, p)
    case Some(i) =>
      var v := MatchAt(s, i, p).value;
      MatchAtMeaning(s, i, p, v);
      forall j: nat, u | j < i ensures !MatchesAt(s, j, p, u) {
        MatchAtMeaning(s, j, p, u);
      }
    case None =>
      forall i: nat, v | i <= |s| ensures !MatchesAt(s, i, p, v) {
        MatchAtMeaning(s, i, p, v);
      }
  }

  /**
   * The three outcomes of key selection: the leftmost CID match whenever there is
   * one; otherwise the leftmost name match; otherwise nothing, because neither
   * pattern matches anywhere.
   */
  lemma {:induction false} SelectLookupKeyMeaning(message: string)
    ensures match SelectLookupKey(message)
      case Some(ByCid(v)) => LeftmostMatch(message, CidPattern, v)
      case Some(ByName(v)) => NoMatch(message, CidPattern) && LeftmostMatch(message, NamePattern, v)
      case None => NoMatch(message, CidPattern) && NoMatch(message, NamePattern)
  {
    FirstMatchMeaning(message, CidPattern);
    FirstMatchMeaning(message, NamePattern);
  }

  /** A CID match anywhere wins, whether or not a name match exists too. */
  lemma CidBeforeName(message: string, i: nat, v: string)
    requires i <= |message| && MatchesAt(message, i, CidPattern, v)
    ensures SelectLookupKey(message).Some? && SelectLookupKey(message).value.ByCid?
  {
    SelectLookupKeyMeaning(message);
  }
}
