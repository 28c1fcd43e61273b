/** Text normalisation and tokenisation used by the content-similarity signal
    (`normalizeText`, `tokenize`). Character classes follow PCRE's ASCII
    classes; every character above U+007F is treated as a letter. */
module Text {

  predicate IsUpperAscii(c: char) { 'A' <= c <= 'Z' }

  /** `mb_strtolower` on one character (ASCII case mapping only). */
  function LowerChar(c: char): (r: char)
    ensures !IsUpperAscii(r)
    ensures !IsUpperAscii(c) ==> r == c
  {
    if IsUpperAscii(c) then (c as int + 32) as char else c
  }

  function Lower(s: string): (r: string)
    ensures |r| == |s|
    ensures forall i :: 0 <= i < |s| ==> r[i] == LowerChar(s[i])
  {
    seq(|s|, i requires 0 <= i < |s| => LowerChar(s[i]))
  }

  /** PCRE `\s`: space, tab, line feed, vertical tab, form feed, carriage return. */
  predicate IsSpace(c: char) {
    c == ' ' || c == '\t' || c == '\n' || c == '\r' || c == '\U{B}' || c == '\U{C}'
  }

  /** `\p{L}` or `\p{N}`. */
  predicate IsWordChar(c: char) {
    ('a' <= c <= 'z') || ('A' <= c <= 'Z') || ('0' <= c <= '9') || c as int >= 128
  }

  predicate IsPunct(c: char) { !IsWordChar(c) && !IsSpace(c) }

  /** `preg_replace('/[^\p{L}\p{N}\s]+/u', ' ', s)`: every maximal run of
      characters that are neither letters, digits nor whitespace becomes one
      space. `inRun` says that the previous character belonged to such a run. */
  function ReplacePunctRuns(s: string, inRun: bool): (r: string)
    ensures forall c :: c in r ==> c == ' ' || (c in s && !IsPunct(c))
    decreases |s|
  {
    if s == [] then []
    else if IsPunct(s[0]) then
      (if inRun then ReplacePunctRuns(s[1..], true) else [' '] + ReplacePunctRuns(s[1..], true))
    else [s[0]] + ReplacePunctRuns(s[1..], false)
  }

  /** `preg_replace('/\s+/u', ' ', s)`: every maximal whitespace run becomes one space. */
  function CollapseSpaceRuns(s: string, inRun: bool): (r: string)
    ensures forall c :: c in r ==> c == ' ' || (c in s && !IsSpace(c))
    decreases |s|
  {
    if s == [] then []
    else if IsSpace(s[0]) then
      (if inRun then CollapseSpaceRuns(s[1..], true) else [' '] + CollapseSpaceRuns(s[1..], true))
    else [s[0]] + CollapseSpaceRuns(s[1..], false)
  }

  /** The characters PHP's `trim` removes. */
  predicate IsTrimChar(c: char) {
    c == ' ' || c == '\t' || c == '\n' || c == '\r' || c == '\0' || c == '\U{B}'
  }

  function TrimLeft(s: string): (r: string)
    ensures |r| <= |s| && r == s[|s| - |r|..]
    ensures r != [] ==> !IsTrimChar(r[0])
  {
    if s != [] && IsTrimChar(s[0]) then TrimLeft(s[1..]) else s
  }

  function TrimRight(s: string): (r: string)
    ensures |r| <= |s| && r == s[..|r|]
    ensures r != [] ==> !IsTrimChar(r[|r| - 1])
  {
    if s != [] && IsTrimChar(s[|s| - 1]) then TrimRight(s[..|s| - 1]) else s
  }

  function Trim(s: string): string {
    TrimRight(TrimLeft(s))
  }

  /** `normalizeText`: lower-case, punctuation runs to a space, whitespace runs
      to a single space, then trimmed. */
  function NormalizeText(s: string): string {
    Trim(CollapseSpaceRuns(ReplacePunctRuns(Lower(s), false), false))
  }

  ghost predicate NoDoubleSpace(s: string) {
    forall i :: 0 <= i < |s| - 1 ==> !(s[i] == ' ' && s[i + 1] == ' ')
  }

  /** Only lower-case letters, digits and spaces. */
  ghost predicate WordCharsOrSpaces(s: string) {
    forall i :: 0 <= i < |s| ==> (IsWordChar(s[i]) && !IsUpperAscii(s[i])) || s[i] == ' '
  }

  /** What a normalised string looks like: only lower-case letters, digits and
      single spaces, with no space at either end. */
  ghost predicate IsNormalized(s: string) {
    && WordCharsOrSpaces(s)
    && NoDoubleSpace(s)
    && (s != [] ==> s[0] != ' ' && s[|s| - 1] != ' ')
  }

  lemma {:induction false} CollapseNoDoubleSpace(s: string, inRun: bool)
    ensures NoDoubleSpace(CollapseSpaceRuns(s, inRun))
    ensures inRun ==> CollapseSpaceRuns(s, inRun) == [] || CollapseSpaceRuns(s, inRun)[0] != ' '
    decreases |s|
  {
    if s != [] {
      CollapseNoDoubleSpace(s[1..], IsSpace(s[0]));
      var t := CollapseSpaceRuns(s[1..], IsSpace(s[0]));
      var r := CollapseSpaceRuns(s, inRun);
      if IsSpace(s[0]) && !inRun {
        assert r == [' '] + t;
        assert forall i :: 1 <= i < |r| ==> r[i] == t[i - 1];
      } else if !IsSpace(s[0]) {
        assert r == [s[0]] + t;
        assert forall i :: 1 <= i < |r| ==> r[i] == t[i - 1];
      }
    }
  }

  /** The characters that survive the two replacement passes. */
  lemma PassesKeepWordChars(s: string, c: char)
    requires c in CollapseSpaceRuns(ReplacePunctRuns(Lower(s), false), false)
    ensures (IsWordChar(c) && !IsUpperAscii(c)) || c == ' '
  {
    var low := Lower(s);
    var p := ReplacePunctRuns(low, false);
    if c != ' ' {
      assert c in p && !IsSpace(c);
      assert c in low && !IsPunct(c);
      var j :| 0 <= j < |low| && low[j] == c;
      assert !IsUpperAscii(low[j]);
    }
  }

  /** A slice of a string inherits its no-double-space property. */
  lemma SliceNoDoubleSpace(c: string, lo: nat, hi: nat)
    requires lo <= hi <= |c| && NoDoubleSpace(c)
    ensures NoDoubleSpace(c[lo..hi])
  {
    var r := c[lo..hi];
    forall i | 0 <= i < |r| - 1 ensures !(r[i] == ' ' && r[i + 1] == ' ') {
      assert r[i] == c[lo + i] && r[i + 1] == c[lo + i + 1];
    }
  }

  lemma SliceWordCharsOrSpaces(c: string, lo: nat, hi: nat)
    requires lo <= hi <= |c| && WordCharsOrSpaces(c)
    ensures WordCharsOrSpaces(c[lo..hi])
  {
    var r := c[lo..hi];
    forall i | 0 <= i < |r| ensures (IsWordChar(r[i]) && !IsUpperAscii(r[i])) || r[i] == ' ' {
      assert r[i] == c[lo + i];
    }
  }

  lemma PassesWordCharsOrSpaces(s: string)
    ensures WordCharsOrSpaces(CollapseSpaceRuns(ReplacePunctRuns(Lower(s), false), false))
  {
    var c := CollapseSpaceRuns(ReplacePunctRuns(Lower(s), false), false);
    forall i | 0 <= i < |c| ensures (IsWordChar(c[i]) && !IsUpperAscii(c[i])) || c[i] == ' ' {
      PassesKeepWordChars(s, c[i]);
    }
  }

  /** Trimming a string of word characters and single spaces normalises it. */
  lemma TrimNormalizes(c: string)
    requires WordCharsOrSpaces(c) && NoDoubleSpace(c)
    ensures IsNormalized(Trim(c))
  {
    var l := TrimLeft(c);
    TrimLeftKeeps(c);
    var r := TrimRight(l);
    TrimRightKeeps(l);
    assert r != [] ==> r[0] == l[0];
  }

  lemma TrimLeftKeeps(c: string)
    requires WordCharsOrSpaces(c) && NoDoubleSpace(c)
    ensures WordCharsOrSpaces(TrimLeft(c)) && NoDoubleSpace(TrimLeft(c))
  {
    var l := TrimLeft(c);
    SliceWordCharsOrSpaces(c, |c| - |l|, |c|);
    SliceNoDoubleSpace(c, |c| - |l|, |c|);
  }

  lemma TrimRightKeeps(l: string)
    requires WordCharsOrSpaces(l) && NoDoubleSpace(l)
    ensures WordCharsOrSpaces(TrimRight(l)) && NoDoubleSpace(TrimRight(l))
  {
    var r := TrimRight(l);
    SliceWordCharsOrSpaces(l, 0, |r|);
    SliceNoDoubleSpace(l, 0, |r|);
  }

  /** normalizeText always produces a normalised string. */
  lemma NormalizeTextIsNormalized(s: string)
    ensures IsNormalized(NormalizeText(s))
  {
    var p := ReplacePunctRuns(Lower(s), false);
    PassesWordCharsOrSpaces(s);
    CollapseNoDoubleSpace(p, false);
    TrimNormalizes(CollapseSpaceRuns(p, false));
  }

  /** The longest whitespace-free prefix. */
  function Word(s: string): (w: string)
    ensures |w| <= |s| && w == s[..|w|]
    ensures forall i :: 0 <= i < |w| ==> !IsSpace(w[i])
    ensures |w| < |s| ==> IsSpace(s[|w|])
    ensures s != [] && !IsSpace(s[0]) ==> |w| > 0
  {
    if s == [] || IsSpace(s[0]) then [] else [s[0]] + Word(s[1..])
  }

  /** `preg_split('/\s+/u', s, -1, PREG_SPLIT_NO_EMPTY)`: the maximal whitespace-free pieces. */
  function Split(s: string): seq<string>
    decreases |s|
  {
    if s == [] then []
    else if IsSpace(s[0]) then Split(s[1..])
    else var w := Word(s); [w] + Split(s[|w|..])
  }

  /** `tokenize` */
  function Tokenize(s: string): (ts: seq<string>)
    ensures s == [] ==> ts == []
  {
    if s == [] then [] else Split(s)
  }

  ghost predicate IsToken(t: string) {
    t != [] && forall i :: 0 <= i < |t| ==> !IsSpace(t[i])
  }

  /** Every token is non-empty and free of whitespace. */
  lemma {:induction false} SplitTokens(s: string)
    ensures forall k :: 0 <= k < |Split(s)| ==> IsToken(Split(s)[k])
    decreases |s|
  {
    if s != [] {
      if IsSpace(s[0]) {
        SplitTokens(s[1..]);
      } else {
        var w := Word(s);
        SplitTokens(s[|w|..]);
        assert Split(s) == [w] + Split(s[|w|..]);
      }
    }
  }

  lemma TokenizeTokens(s: string)
    ensures forall k :: 0 <= k < |Tokenize(s)| ==> IsToken(Tokenize(s)[k])
  {
    if s != [] {
      SplitTokens(s);
    }
  }

  function Join(ts: seq<string>, sep: string): string {
    if ts == [] then []
    else if |ts| == 1 then ts[0]
    else ts[0] + sep + Join(ts[1..], sep)
  }

  /** What follows a space inside a normalised string is normalised too. */
  lemma NormalizedAfterSpace(s: string, k: nat)
    requires IsNormalized(s) && k < |s| && s[k] == ' '
    ensures k + 1 < |s| && s[k + 1] != ' ' && IsNormalized(s[k + 1..])
  {
    SliceNoDoubleSpace(s, k + 1, |s|);
  }

  lemma JoinCons(w: string, ts: seq<string>, sep: string)
    requires ts != []
    ensures Join([w] + ts, sep) == w + sep + Join(ts, sep)
  {
    assert ([w] + ts)[1..] == ts;
  }

  /** A normalised string that goes on after its first word is that word, one
      space and a normalised rest. */
  lemma SplitAfterWord(s: string)
    requires IsNormalized(s) && s != [] && |Word(s)| < |s|
    ensures var w := Word(s); var tail := s[|w| + 1..];
      && Split(s) == [w] + Split(tail) && s == w + " " + tail
      && IsNormalized(tail) && Split(tail) != []
  {
    assert !IsSpace(s[0]);
    var w := Word(s);
    var rest := s[|w|..];
    assert Split(s) == [w] + Split(rest);
    assert s[|w|] == ' ';
    NormalizedAfterSpace(s, |w|);
    var tail := s[|w| + 1..];
    assert rest == [' '] + tail;
    assert rest[1..] == tail;
    assert !IsSpace(tail[0]);
    assert s == w + " " + tail;
  }

  /** Joining the tokens of a normalised string with single spaces gives it back. */
  lemma {:induction false} JoinSplit(s: string)
    requires IsNormalized(s)
    ensures Join(Split(s), " ") == s
    decreases |s|
  {
    if s != [] {
      assert !IsSpace(s[0]);
      var w := Word(s);
      if |w| < |s| {
        SplitAfterWord(s);
        var tail := s[|w| + 1..];
        JoinSplit(tail);
        JoinCons(w, Split(tail), " ");
      } else {
        assert s[|w|..] == [];
        assert Split(s) == [w];
      }
    }
  }

  lemma JoinTokenize(s: string)
    requires IsNormalized(s)
    ensures Join(Tokenize(s), " ") == s
  {
    if s != [] {
      JoinSplit(s);
    }
  }
}
