/**
 * The settings row the webhook reads once per request, and the pure
 * computations it derives from it: the handover keyword list, the list of
 * agents to notify, keyword matching against a message, and the human-mode
 * timeout.
 */
module Config {
  import opened Options
  import opened JsString

  /** The columns of the `settings` row that the event pipeline reads; nullable columns are `Option`s. */
  datatype Settings = Settings(
    handoverKeywords: Option<string>,
    agentUserIds: Option<string>,
    handoverTimeoutMinutes: Option<int>,
    isAiEnabled: bool,
    activeAi: Option<string>,
    systemPrompt: Option<string>,
    referenceText: Option<string>,
    referenceFileUrl: Option<string>,
    gptModelName: string,
    gptMaxTokens: Option<int>,
    gptTemperature: Option<real>,
    gptReasoningEffort: Option<string>,
    gptVerbosity: Option<string>,
    geminiModelName: string,
    geminiMaxTokens: Option<int>
  )

  const AsciiComma: char := ','
  const FullWidthComma: char := '\U{FF0C}'

  /** A list entry as the parser keeps it: non-empty, no whitespace at either end, no `sep` inside. */
  predicate IsToken(t: string, sep: char) {
    t != [] && IsTrimmed(t) && sep !in t
  }

  function TrimAll(pieces: seq<string>): (r: seq<string>)
    ensures |r| == |pieces|
    ensures forall i :: 0 <= i < |r| ==> r[i] == Trim(pieces[i])
  {
    if pieces == [] then []
    else
      var rest := TrimAll(pieces[1..]);
      MapCons(pieces, rest, Trim);
      [Trim(pieces[0])] + rest
  }

  /** Applying `f` to the first piece, in front of `f` applied to the remaining pieces, applies `f` to every piece. */
  lemma MapCons(pieces: seq<string>, rest: seq<string>, f: string -> string)
    requires pieces != [] && |rest| == |pieces| - 1
    requires forall i :: 0 <= i < |rest| ==> rest[i] == f(pieces[1..][i])
    ensures forall i :: 0 <= i < |pieces| ==> ([f(pieces[0])] + rest)[i] == f(pieces[i])
  {
    var r := [f(pieces[0])] + rest;
    forall i | 1 <= i < |pieces| ensures r[i] == f(pieces[i]) {
      assert r[i] == rest[i - 1];
      assert pieces[1..][i - 1] == pieces[i];
    }
  }

  function DropEmpty(pieces: seq<string>): (r: seq<string>)
    ensures forall i :: 0 <= i < |r| ==> r[i] != [] && r[i] in pieces
  {
    if pieces == [] then []
    else if pieces[0] == [] then DropEmpty(pieces[1..])
    else [pieces[0]] + DropEmpty(pieces[1..])
  }

  /** `s.split(sep).map(x => x.trim()).filter(x => x.length > 0)`. */
  function Tokens(s: string, sep: char): (r: seq<string>)
    ensures forall i :: 0 <= i < |r| ==> IsToken(r[i], sep)
  {
    var pieces := Split(s, sep);
    var trimmed := TrimAll(pieces);
    var r := DropEmpty(trimmed);
    SplitPieces(s, sep);
    forall i | 0 <= i < |r| ensures IsToken(r[i], sep) {
      assert r[i] in trimmed;
      var j :| 0 <= j < |trimmed| && trimmed[j] == r[i];
      assert r[i] == Trim(pieces[j]);
      if sep in r[i] { TrimChars(pieces[j], sep); }
    }
    r
  }

  lemma {:induction false} TrimAllAppend(a: seq<string>, b: seq<string>)
    ensures TrimAll(a + b) == TrimAll(a) + TrimAll(b)
    decreases |a|
  {
    var ab := a + b;
    if a == [] {
      assert ab == b;
    } else {
      assert ab[0] == a[0] && ab[1..] == a[1..] + b;
      TrimAllAppend(a[1..], b);
    }
  }

  lemma {:induction false} DropEmptyAppend(a: seq<string>, b: seq<string>)
    ensures DropEmpty(a + b) == DropEmpty(a) + DropEmpty(b)
  {
    var ab := a + b;
    if a == [] {
      assert ab == b;
    } else {
      assert ab[0] == a[0] && ab[1..] == a[1..] + b;
      DropEmptyAppend(a[1..], b);
      if a[0] != [] {
        assert [a[0]] + (DropEmpty(a[1..]) + DropEmpty(b)) == ([a[0]] + DropEmpty(a[1..])) + DropEmpty(b);
      }
    }
  }

  /** A separator between two texts puts their tokens side by side. */
  lemma TokensAround(a: string, sep: char, b: string)
    ensures Tokens(a + [sep] + b, sep) == Tokens(a, sep) + Tokens(b, sep)
  {
    SplitAround(a, sep, b);
    TrimAllAppend(Split(a, sep), Split(b, sep));
    DropEmptyAppend(TrimAll(Split(a, sep)), TrimAll(Split(b, sep)));
  }

  /** A text without the separator is one token, or none when it is blank. */
  lemma TokensOfOnePiece(p: string, sep: char)
    requires sep !in p
    ensures Tokens(p, sep) == if Trim(p) == [] then [] else [Trim(p)]
  {
    SplitNoSeparator(p, sep);
    var t := Trim(p);
    assert TrimAll([p]) == [t];
    assert [t][1..] == [];
    assert DropEmpty([t]) == if t == [] then [] else [t];
  }

  /** The handover keyword list: full-width commas become commas, then the text is tokenised on commas. */
  function ParseKeywords(v: Option<string>): (r: seq<string>)
    ensures v.None? ==> r == []
    ensures forall i :: 0 <= i < |r| ==> IsToken(r[i], AsciiComma) && FullWidthComma !in r[i]
  {
    match v
    case None => []
    case Some(s) =>
      var t := ReplaceAll(s, FullWidthComma, AsciiComma);
      var r := Tokens(t, AsciiComma);
      ReplaceAllRemoves(s, FullWidthComma, AsciiComma);
      forall i | 0 <= i < |r| ensures FullWidthComma !in r[i] {
        if FullWidthComma in r[i] {
          TokenChars(t, AsciiComma, i, FullWidthComma);
        }
      }
      r
  }

  /** A character of a token is a character of the text that was tokenised. */
  lemma TokenChars(s: string, sep: char, i: nat, c: char)
    requires i < |Tokens(s, sep)| && c in Tokens(s, sep)[i]
    ensures c in s
  {
    var pieces := Split(s, sep);
    var trimmed := TrimAll(pieces);
    var r := DropEmpty(trimmed);
    assert Tokens(s, sep) == r;
    assert r[i] in trimmed;
    var j :| 0 <= j < |trimmed| && trimmed[j] == r[i];
    assert c in Trim(pieces[j]);
    TrimChars(pieces[j], c);
    SplitPieceChars(s, sep, j, c);
  }

  /** A character of a piece is a character of the text that was split. */
  lemma {:induction false} SplitPieceChars(s: string, sep: char, j: nat, c: char)
    requires j < |Split(s, sep)| && c in Split(s, sep)[j]
    ensures c in s
  {
    SplitPieces(s, sep);
    JoinChars(Split(s, sep), sep, j, c);
  }

  lemma {:induction false} JoinChars(pieces: seq<string>, sep: char, j: nat, c: char)
    requires j < |pieces| && c in pieces[j]
    ensures c in Join(pieces, sep)
  {
    if |pieces| > 1 {
      if j > 0 { JoinChars(pieces[1..], sep, j - 1, c); }
    }
  }

  /** Both commas, ASCII and full-width, separate keywords. */
  lemma KeywordSeparators(a: string, sep: char, b: string)
    requires sep == AsciiComma || sep == FullWidthComma
    ensures ParseKeywords(Some(a + [sep] + b)) == ParseKeywords(Some(a)) + ParseKeywords(Some(b))
  {
    var ra, rb := ReplaceAll(a, FullWidthComma, AsciiComma), ReplaceAll(b, FullWidthComma, AsciiComma);
    ReplaceAllAppend(a + [sep], b, FullWidthComma, AsciiComma);
    ReplaceAllAppend(a, [sep], FullWidthComma, AsciiComma);
    assert ReplaceAll([sep], FullWidthComma, AsciiComma) == [AsciiComma];
    TokensAround(ra, AsciiComma, rb);
  }

  /** A keyword text with neither comma is a single keyword, its trim, or no keyword when blank. */
  lemma KeywordSingle(p: string)
    requires AsciiComma !in p && FullWidthComma !in p
    ensures ParseKeywords(Some(p)) == if Trim(p) == [] then [] else [Trim(p)]
  {
    assert ReplaceAll(p, FullWidthComma, AsciiComma) == p;
    TokensOfOnePiece(p, AsciiComma);
  }

  /** The agent list: split on the ASCII comma only, trimmed, blanks dropped; an absent column gives no agent. */
  function ParseAgentIds(v: Option<string>): (r: seq<string>)
    ensures v.None? ==> r == []
    ensures forall i :: 0 <= i < |r| ==> IsToken(r[i], AsciiComma)
  {
    match v
    case None => []
    case Some(s) => Tokens(s, AsciiComma)
  }

  /** The ASCII comma separates agent ids. */
  lemma AgentIdsAround(a: string, b: string)
    ensures ParseAgentIds(Some(a + [AsciiComma] + b)) == ParseAgentIds(Some(a)) + ParseAgentIds(Some(b))
  {
    TokensAround(a, AsciiComma, b);
  }

  /** An agent text without an ASCII comma is a single id, its trim, or no id when blank. */
  lemma AgentIdsSingle(p: string)
    requires AsciiComma !in p
    ensures ParseAgentIds(Some(p)) == if Trim(p) == [] then [] else [Trim(p)]
  {
    TokensOfOnePiece(p, AsciiComma);
  }

  /** The full-width comma does not separate agent ids: a text without an ASCII comma is one id. */
  lemma AgentIdsIgnoreFullWidthComma(a: string, b: string)
    requires AsciiComma !in a && AsciiComma !in b
    requires a != [] && !IsSpace(a[0]) && b != [] && !IsSpace(b[|b| - 1])
    ensures ParseAgentIds(Some(a + [FullWidthComma] + b)) == [a + [FullWidthComma] + b]
  {
    var p := a + [FullWidthComma] + b;
    assert p[0] == a[0] && p[|p| - 1] == b[|b| - 1];
    TrimTrimmed(p);
    TokensOfOnePiece(p, AsciiComma);
  }

  /**
   * Whether keyword `k` fires on message `m`: a keyword whose JavaScript
   * length is 1 must equal the message, a longer one must occur in it.
   */
  predicate Hits(k: string, m: string) {
    if Utf16Length(k) == 1 then m == k else Includes(m, k)
  }

  /** For a non-empty keyword: one BMP character matches only the whole message, anything else matches as a substring. */
  lemma HitsMeaning(k: string, m: string)
    requires k != []
    ensures Hits(k, m) <==>
      if |k| == 1 && k[0] as int < 0x10000 then m == k
      else exists i, j :: 0 <= i <= j <= |m| && m[i..j] == k
  {
    Utf16LengthOne(k);
    IncludesMeaning(m, k);
  }

  /** `keywords.find(k => Hits(k, m))`. */
  function MatchKeyword(keywords: seq<string>, m: string): Option<string> {
    if keywords == [] then None
    else if Hits(keywords[0], m) then Some(keywords[0])
    else MatchKeyword(keywords[1..], m)
  }

  /** Nothing is matched exactly when no keyword fires; otherwise the match is the first keyword in list order that fires. */
  lemma {:induction false} MatchKeywordFirst(keywords: seq<string>, m: string)
    ensures MatchKeyword(keywords, m).None? <==> forall i :: 0 <= i < |keywords| ==> !Hits(keywords[i], m)
    ensures MatchKeyword(keywords, m).Some? ==>
              exists i :: 0 <= i < |keywords| && keywords[i] == MatchKeyword(keywords, m).value
                          && Hits(keywords[i], m) && forall j :: 0 <= j < i ==> !Hits(keywords[j], m)
  {
    if keywords != [] && !Hits(keywords[0], m) {
      var tail := keywords[1..];
      MatchKeywordFirst(tail, m);
      var r := MatchKeyword(tail, m);
      if r.Some? {
        var i :| 0 <= i < |tail| && tail[i] == r.value && Hits(tail[i], m)
                 && forall j :: 0 <= j < i ==> !Hits(tail[j], m);
        assert keywords[i + 1] == r.value;
        forall j | 0 <= j < i + 1 ensures !Hits(keywords[j], m) {
          if j > 0 { assert keywords[j] == tail[j - 1]; }
        }
      } else {
        forall i | 0 <= i < |keywords| ensures !Hits(keywords[i], m) {
          if i > 0 { assert keywords[i] == tail[i - 1]; }
        }
      }
    }
  }

  /** `(handover_timeout_minutes || 30) * 60 * 1000`: a missing or zero setting means 30 minutes. */
  function TimeoutMs(minutes: Option<int>): (r: int)
    ensures minutes.None? || minutes == Some(0) ==> r == 30 * 60000
    ensures minutes.Some? && minutes.value != 0 ==> r == minutes.value * 60000
  {
    (if minutes.Some? && minutes.value != 0 then minutes.value else 30) * 60 * 1000
  }
}
