/** The searches the service managers run over a configuration file's text
    to read a directive `Key<whitespace><value>`, with the semantics of
    Python's `re.search`: the leftmost position where the pattern matches,
    greedy runs, and the backtracking a `.+` after `\s+` needs. */
module ConfigSearch {
  import opened Strings

  /** What the pattern captures after the whitespace that follows the key. */
  datatype Capture =
    | Digits             // `(\d+)`
    | Word               // `(\w+)`
    | RestOfLine         // `(.+)`
    | Quoted             // `"([^"]+)"`
    | Fixed(text: string) // a literal word, such as `sftp`

  /** Where a match may begin: anywhere (no flag), at the start of a line
      (`^` under `re.MULTILINE`), or at the start of a word (`\b`). */
  datatype Anchor = Anywhere | LineStart | WordStart

  /** `\w` on ASCII text. */
  predicate IsWordChar(c: char) {
    ('a' <= c <= 'z') || ('A' <= c <= 'Z') || ('0' <= c <= '9') || c == '_'
  }

  /** The characters a capture's run is made of. */
  predicate InRun(cls: Capture, c: char) {
    match cls
    case Digits => IsDigit(c)
    case Word => IsWordChar(c)
    case RestOfLine => c != '\n'
    case Quoted => c != '"'
    case Fixed(_) => false
  }

  /** The length of the longest run of `cls` characters starting at `i`. */
  function Run(s: string, i: nat, cls: Capture): (n: nat)
    requires i <= |s|
    ensures i + n <= |s|
    ensures forall j :: i <= j < i + n ==> InRun(cls, s[j])
    ensures i + n < |s| ==> !InRun(cls, s[i + n])
    decreases |s| - i
  {
    if i < |s| && InRun(cls, s[i]) then 1 + Run(s, i + 1, cls) else 0
  }

  predicate AnchorOk(s: string, p: nat, anchor: Anchor)
    requires p <= |s|
  {
    match anchor
    case Anywhere => true
    case LineStart => p == 0 || s[p - 1] == '\n'
    case WordStart => p == 0 || !IsWordChar(s[p - 1])
  }

  /** Where `.+` can start once `\s+` has backtracked from `g`: the latest
      position after `a`, up to `g`, that is not a line break. */
  function LineAfter(s: string, a: nat, g: nat): (r: Option<nat>)
    requires a <= g <= |s|
    ensures r.Some? ==> a < r.value <= g && r.value < |s| && s[r.value] != '\n'
    ensures r.None? ==> forall j :: a < j <= g && j < |s| ==> s[j] == '\n'
    decreases g
  {
    if g == a then None
    else if g < |s| && s[g] != '\n' then Some(g)
    else LineAfter(s, a, g - 1)
  }

  /** The value captured when the key ends at `a`, if the rest of the
      pattern matches there. */
  function ValueAt(s: string, cls: Capture, a: nat): (r: Option<string>)
    requires a <= |s|
    ensures r.Some? && !cls.Fixed? ==> |r.value| > 0 && forall i :: 0 <= i < |r.value| ==> InRun(cls, r.value[i])
    ensures r.Some? && cls.Fixed? ==> r.value == cls.text
  {
    var w := SpaceRun(s, a);
    if w == 0 then None
    else
      var b := a + w;
      match cls
      case Fixed(t) => if StartsWith(s[b..], t) then Some(t) else None
      case RestOfLine =>
        (match LineAfter(s, a, b)
         case None => None
         case Some(g) => Some(s[g..g + Run(s, g, cls)]))
      case Quoted =>
        if b < |s| && s[b] == '"' then
          var n := Run(s, b + 1, cls);
          if n > 0 && b + 1 + n < |s| then Some(s[b + 1..b + 1 + n]) else None
        else None
      case _ =>
        var n := Run(s, b, cls);
        if n == 0 then None else Some(s[b..b + n])
  }

  /** The pattern matched at `p`. */
  function MatchAt(s: string, anchor: Anchor, key: string, cls: Capture, p: nat): Option<string>
    requires p <= |s|
  {
    if AnchorOk(s, p, anchor) && StartsWith(s[p..], key) then ValueAt(s, cls, p + |key|) else None
  }

  /** The leftmost position at or after `from` where the pattern matches. */
  function FirstMatch(s: string, anchor: Anchor, key: string, cls: Capture, from: nat): (r: Option<nat>)
    requires from <= |s|
    ensures r.Some? ==> from <= r.value <= |s| && MatchAt(s, anchor, key, cls, r.value).Some?
    ensures r.Some? ==> forall q :: from <= q < r.value ==> MatchAt(s, anchor, key, cls, q).None?
    ensures r.None? ==> forall q :: from <= q <= |s| ==> MatchAt(s, anchor, key, cls, q).None?
    decreases |s| - from
  {
    if MatchAt(s, anchor, key, cls, from).Some? then Some(from)
    else if from == |s| then None
    else FirstMatch(s, anchor, key, cls, from + 1)
  }

  /** `re.search`: the value captured by the leftmost match, if any. */
  function Search(s: string, anchor: Anchor, key: string, cls: Capture): (r: Option<string>)
    ensures r.Some? <==> exists p :: 0 <= p <= |s| && MatchAt(s, anchor, key, cls, p).Some?
    ensures r.Some? ==> exists p :: 0 <= p <= |s| && AnchorOk(s, p, anchor) && StartsWith(s[p..], key)
                                    && ValueAt(s, cls, p + |key|) == r
  {
    match FirstMatch(s, anchor, key, cls, 0)
    case None => None
    case Some(p) => MatchAt(s, anchor, key, cls, p)
  }

  lemma {:induction false} RunOf(s: string, i: nat, cls: Capture, v: string, rest: string)
    requires i + |v| + |rest| == |s| && s[i..] == v + rest
    requires forall j :: 0 <= j < |v| ==> InRun(cls, v[j])
    requires rest == [] || !InRun(cls, rest[0])
    ensures Run(s, i, cls) == |v|
    decreases |v|
  {
    if v != [] {
      assert s[i] == v[0];
      assert s[i + 1..] == v[1..] + rest;
      RunOf(s, i + 1, cls, v[1..], rest);
    } else if rest != [] {
      assert s[i] == rest[0];
    }
  }

  /** A directive `key value` after `pre` matches there, for a digit or word
      value that is the whole run. */
  lemma FoundAt(s: string, pre: string, anchor: Anchor, key: string, cls: Capture, v: string, rest: string)
    requires cls == Digits || cls == Word
    requires s == pre + key + " " + v + rest && AnchorOk(s, |pre|, anchor)
    requires v != [] && forall j :: 0 <= j < |v| ==> InRun(cls, v[j])
    requires rest == [] || !InRun(cls, rest[0])
    ensures MatchAt(s, anchor, key, cls, |pre|) == Some(v)
  {
    var p := |pre|;
    assert s[p..][..|key|] == key;
    assert s == (pre + key) + " " + v + rest;
    ValueAfterKey(s, pre + key, cls, v, rest);
  }

  lemma ValueAfterKey(s: string, pre: string, cls: Capture, v: string, rest: string)
    requires cls == Digits || cls == Word
    requires s == pre + " " + v + rest
    requires v != [] && forall j :: 0 <= j < |v| ==> InRun(cls, v[j])
    requires rest == [] || !InRun(cls, rest[0])
    ensures ValueAt(s, cls, |pre|) == Some(v)
  {
    var a := |pre|;
    assert s[a] == ' ';
    assert s[a + 1] == v[0] && !IsSpace(v[0]);
    assert SpaceRun(s, a + 1) == 0;
    assert SpaceRun(s, a) == 1;
    assert s[a + 1..] == v + rest;
    RunOf(s, a + 1, cls, v, rest);
    assert s[a + 1..a + 1 + |v|] == v;
  }

  /** A directive at the very start of the text is the one found, whatever
      the anchor. */
  lemma FoundAtStart(anchor: Anchor, key: string, cls: Capture, v: string, rest: string)
    requires cls == Digits || cls == Word
    requires v != [] && forall j :: 0 <= j < |v| ==> InRun(cls, v[j])
    requires rest == [] || !InRun(cls, rest[0])
    ensures Search(key + " " + v + rest, anchor, key, cls) == Some(v)
  {
    var s := key + " " + v + rest;
    assert s == [] + key + " " + v + rest;
    FoundAt(s, [], anchor, key, cls, v, rest);
  }

  /** A quoted value at the very start of the text is the one found. */
  lemma QuotedAtStart(anchor: Anchor, key: string, v: string, rest: string)
    requires v != [] && '"' !in v
    ensures Search(key + " \"" + v + "\"" + rest, anchor, key, Quoted) == Some(v)
  {
    var s := key + " \"" + v + "\"" + rest;
    assert s[0..] == s && s[..|key|] == key;
    QuotedValueAfterKey(s, key, v, rest);
    assert MatchAt(s, anchor, key, Quoted, 0) == Some(v);
  }

  lemma QuotedValueAfterKey(s: string, key: string, v: string, rest: string)
    requires v != [] && '"' !in v
    requires s == key + " \"" + v + "\"" + rest
    ensures ValueAt(s, Quoted, |key|) == Some(v)
  {
    var a := |key|;
    assert s[a] == ' ' && s[a + 1] == '"';
    assert SpaceRun(s, a + 1) == 0;
    assert SpaceRun(s, a) == 1;
    assert s[a + 2..] == v + ("\"" + rest);
    assert forall j :: 0 <= j < |v| ==> InRun(Quoted, v[j]);
    RunOf(s, a + 2, Quoted, v, "\"" + rest);
    assert s[a + 2..a + 2 + |v|] == v;
  }

  /** Under `^`, a key that is not at the start of a line is never matched:
      text whose lines all begin with other characters yields nothing. */
  lemma LineStartNeedsKeyAtLineStart(s: string, key: string, cls: Capture)
    requires key != []
    requires s == [] || s[0] != key[0]
    requires forall i :: 0 < i < |s| && s[i - 1] == '\n' ==> s[i] != key[0]
    ensures Search(s, LineStart, key, cls).None?
  {
    forall p | 0 <= p <= |s| ensures !(AnchorOk(s, p, LineStart) && StartsWith(s[p..], key)) {
      if p < |s| {
        assert s[p..][0] == s[p];
      }
    }
  }

  /** The leftmost match is the one `re.search` reports. */
  lemma SearchFindsLeftmost(s: string, anchor: Anchor, key: string, cls: Capture, p: nat)
    requires p <= |s| && MatchAt(s, anchor, key, cls, p).Some?
    requires forall q :: 0 <= q < p ==> MatchAt(s, anchor, key, cls, q).None?
    ensures Search(s, anchor, key, cls) == MatchAt(s, anchor, key, cls, p)
  {
    var r := FirstMatch(s, anchor, key, cls, 0);
    assert r.Some?;
    assert r.value == p;
  }

  /** No match starts where the key's first character is not. */
  lemma NoMatchWithoutKey(s: string, anchor: Anchor, key: string, cls: Capture, lo: nat, hi: nat)
    requires key != [] && lo <= hi <= |s|
    requires forall q :: lo <= q < hi ==> s[q] != key[0]
    ensures forall q :: lo <= q < hi ==> MatchAt(s, anchor, key, cls, q).None?
  {
    forall q | lo <= q < hi ensures !StartsWith(s[q..], key) {
      assert s[q..][0] == s[q];
    }
  }
}
