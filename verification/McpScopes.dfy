/** Scope upgrades of the protocol client: the 401 challenge, its parsing, the token, and the single retry. */
module McpScopes {
  import opened Text

  // ------------------------------------------------------------------ splitting text

  function Strip(s: string): string {
    LStrip(RStrip(s))
  }

  function LStripQuotes(s: string): string {
    if s != [] && s[0] == '"' then LStripQuotes(s[1..]) else s
  }

  function RStripQuotes(s: string): string {
    if s != [] && s[|s| - 1] == '"' then RStripQuotes(s[..|s| - 1]) else s
  }

  function StripQuotes(s: string): string {
    LStripQuotes(RStripQuotes(s))
  }

  predicate NoBlank(s: string) {
    forall i :: 0 <= i < |s| ==> !IsSpace(s[i])
  }

  /** Length of the leading run without blanks. */
  function WordEnd(s: string): (n: nat)
    ensures n <= |s| && (s != [] && !IsSpace(s[0]) ==> n > 0) && NoBlank(s[..n])
  {
    if s == [] || IsSpace(s[0]) then 0
    else
      assert s[..1 + WordEnd(s[1..])] == [s[0]] + s[1..][..WordEnd(s[1..])];
      1 + WordEnd(s[1..])
  }

  lemma {:induction false} LStripSuffix(s: string)
    ensures |LStrip(s)| <= |s| && LStrip(s) == s[|s| - |LStrip(s)|..]
    ensures LStrip(s) != [] ==> !IsSpace(LStrip(s)[0])
  {
    if s != [] && IsSpace(s[0]) {
      LStripSuffix(s[1..]);
    }
  }

  /** The words of a text, blanks dropped. */
  function Words(s: string): seq<string>
    decreases |s|
  {
    LStripSuffix(s);
    var t := LStrip(s);
    if t == [] then [] else var n := WordEnd(t); [t[..n]] + Words(t[n..])
  }

  function Join(words: seq<string>): string {
    if words == [] then "" else if |words| == 1 then words[0] else words[0] + (" " + Join(words[1..]))
  }

  /** Keys fold their case; only ASCII letters matter to the keys looked up. */
  function Lower(s: string): string {
    if s == [] then [] else [if 'A' <= s[0] <= 'Z' then s[0] - 'A' + 'a' else s[0]] + Lower(s[1..])
  }

  // ------------------------------------------------------------------ the challenge

  /** A scope-token of section 3.3 of RFC 6749, which section 3 of RFC 6750 asks for: printable ASCII but blank, `"`
      and `\`. */
  lemma {:induction false} LowerIs(s: string)
    ensures |Lower(s)| == |s|
    ensures forall i :: 0 <= i < |s| ==>
              if 'A' <= s[i] <= 'Z' then Lower(s)[i] as int == s[i] as int + 32 else Lower(s)[i] == s[i]
  {
    if s != [] {
      LowerIs(s[1..]);
    }
  }

  predicate ScopeToken(s: string) {
    s != [] && forall i :: 0 <= i < |s| ==> '!' <= s[i] <= '~' && s[i] != '"' && s[i] != '\\'
  }

  predicate ScopeTokens(scopes: seq<string>) {
    forall i :: 0 <= i < |scopes| ==> ScopeToken(scopes[i])
  }

  predicate NoComma(scopes: seq<string>) {
    forall i :: 0 <= i < |scopes| ==> ',' !in scopes[i]
  }

  function Quoted(s: string): string {
    "\"" + s + "\""
  }

  function Parameter(key: string, s: string): string {
    key + ("=" + Quoted(s))
  }

  /** The challenge a refused call carries. */
  function Challenge(missing: seq<string>): string {
    "Bearer " + Parameter("scope", Join(missing))
  }

  function ParseChunk(parsed: map<string, string>, chunk: string): map<string, string> {
    var (key, value) := Partition(Strip(chunk), '=');
    if key == "" then parsed else parsed[Lower(key) := StripQuotes(Strip(value))]
  }

  function ParseChunks(parsed: map<string, string>, chunks: seq<string>): map<string, string>
    decreases |chunks|
  {
    if chunks == [] then parsed else ParseChunks(ParseChunk(parsed, chunks[0]), chunks[1..])
  }

  function ParseChallenge(challenge: string): map<string, string> {
    if challenge == "" then map[]
    else
      var (scheme, payload) := Partition(challenge, ' ');
      ParseChunks(map["scheme" := Lower(scheme)], Split(payload, ','))
  }

  /** The scopes a challenge asks for. */
  function Requested(challenge: string): seq<string> {
    var parsed := ParseChallenge(challenge);
    if "scope" in parsed then Words(parsed["scope"]) else []
  }

  method ParseWwwAuthenticate(challenge: string) returns (parsed: map<string, string>)
    ensures parsed == ParseChallenge(challenge)
  {
    parsed := map[];
    if challenge == "" {
      return;
    }
    var (scheme, payload) := Partition(challenge, ' ');
    parsed := parsed["scheme" := Lower(scheme)];
    var chunks := Split(payload, ',');
    var i := 0;
    while i < |chunks|
      invariant 0 <= i <= |chunks|
      invariant ParseChunks(parsed, chunks[i..]) == ParseChallenge(challenge)
    {
      assert chunks[i..][1..] == chunks[i + 1..];
      var (key, value) := Partition(Strip(chunks[i]), '=');
      if key != "" {
        parsed := parsed[Lower(key) := StripQuotes(Strip(value))];
      }
      i := i + 1;
    }
  }

  // ------------------------------------------------------------------ printing and parsing a challenge

  lemma {:induction false} WordEndOf(w: string, rest: string)
    requires NoBlank(w) && (rest == [] || IsSpace(rest[0]))
    ensures WordEnd(w + rest) == |w|
  {
    if w == [] {
      assert w + rest == rest;
    } else {
      assert (w + rest)[1..] == w[1..] + rest;
      WordEndOf(w[1..], rest);
    }
  }

  /** Reading one word off the front. */
  lemma {:induction false} WordsCons(w: string, rest: string)
    requires w != [] && NoBlank(w) && (rest == [] || IsSpace(rest[0]))
    ensures Words(w + rest) == [w] + Words(rest)
  {
    WordEndOf(w, rest);
    assert (w + rest)[0] == w[0];
    assert LStrip(w + rest) == w + rest;
    assert (w + rest)[..|w|] == w && (w + rest)[|w|..] == rest;
  }

  lemma {:induction false} WordsBlank(s: string)
    ensures Words(" " + s) == Words(s)
  {
    assert (" " + s)[1..] == s;
  }

  ghost predicate NoBlanks(words: seq<string>) {
    forall i :: 0 <= i < |words| ==> NoBlank(words[i])
  }

  /** The list without its empty texts. */
  function NonEmpty(words: seq<string>): seq<string> {
    if words == [] then [] else (if words[0] == "" then [] else [words[0]]) + NonEmpty(words[1..])
  }

  lemma {:induction false} NonEmptyHas(words: seq<string>, s: string)
    ensures s in NonEmpty(words) <==> s in words && s != ""
  {
    if words != [] {
      NonEmptyHas(words[1..], s);
      assert words == [words[0]] + words[1..];
    }
  }

  /** Joining texts without blanks and splitting again drops the empty ones only. */
  lemma {:induction false} WordsJoin(words: seq<string>)
    requires NoBlanks(words)
    ensures Words(Join(words)) == NonEmpty(words)
  {
    if words == [] {
    } else if |words| == 1 {
      if words[0] != "" {
        WordsCons(words[0], "");
        assert words[0] + "" == words[0];
      }
      assert words[1..] == [];
    } else {
      var w, rest := words[0], Join(words[1..]);
      WordsJoin(words[1..]);
      WordsBlank(rest);
      if w == "" {
        assert w + (" " + rest) == " " + rest;
      } else {
        WordsCons(w, " " + rest);
      }
    }
  }

  lemma {:induction false} JoinKeeps(words: seq<string>, c: char)
    requires c != ' ' && forall i :: 0 <= i < |words| ==> c !in words[i]
    ensures c !in Join(words)
  {
    if |words| > 1 {
      JoinKeeps(words[1..], c);
    }
  }

  lemma {:induction false} PartitionAt(a: string, c: char, b: string)
    requires c !in a
    ensures Partition(a + ([c] + b), c) == (a, b)
  {
    IndexOfAt(a, c, b);
    var s := a + ([c] + b);
    assert s[..|a|] == a && s[|a| + 1..] == b;
  }

  lemma {:induction false} StripNothing(s: string)
    requires s != [] && !IsSpace(s[0]) && !IsSpace(s[|s| - 1])
    ensures Strip(s) == s
  {}

  lemma {:induction false} RStripQuotesAfter(a: string, b: string)
    requires RStripQuotes(b) != []
    ensures RStripQuotes(a + b) == a + RStripQuotes(b)
  {
    if b[|b| - 1] == '"' {
      assert (a + b)[..|a + b| - 1] == a + b[..|b| - 1];
      RStripQuotesAfter(a, b[..|b| - 1]);
    }
  }

  lemma {:induction false} RStripQuotesAll(s: string)
    requires RStripQuotes(s) == []
    ensures RStripQuotes("\"" + s) == []
  {
    if s != [] {
      assert ("\"" + s)[..|s|] == "\"" + s[..|s| - 1];
      RStripQuotesAll(s[..|s| - 1]);
    }
  }

  /** One more pair of quotes around a text changes nothing once quotes are stripped. */
  lemma {:induction false} StripQuotesQuoted(s: string)
    ensures StripQuotes(Quoted(s)) == StripQuotes(s)
  {
    var open, q := "\"" + s, Quoted(s);
    assert q[|q| - 1] == '"' && q[..|q| - 1] == open;
    if RStripQuotes(s) == [] {
      RStripQuotesAll(s);
    } else {
      RStripQuotesAfter("\"", s);
      assert ("\"" + RStripQuotes(s))[1..] == RStripQuotes(s);
    }
  }

  lemma {:induction false} ChallengePayload(missing: seq<string>)
    ensures Partition(Challenge(missing), ' ') == ("Bearer", Parameter("scope", Join(missing)))
  {
    var payload := Parameter("scope", Join(missing));
    assert Challenge(missing) == "Bearer" + ([' '] + payload);
    PartitionAt("Bearer", ' ', payload);
  }

  /** A key and a quoted value read back, the value without quotes at its ends. */
  lemma {:induction false} QuotedReadsBack(parsed: map<string, string>, key: string, s: string)
    requires key != "" && !IsSpace(key[0]) && '=' !in key
    ensures ParseChunk(parsed, Parameter(key, s)) == parsed[Lower(key) := StripQuotes(s)]
  {
    var value := Quoted(s);
    var chunk := Parameter(key, s);
    assert chunk == key + (['='] + value);
    assert chunk[0] == key[0] && chunk[|chunk| - 1] == '"';
    StripNothing(chunk);
    PartitionAt(key, '=', value);
    StripNothing(value);
    StripQuotesQuoted(s);
  }

  /** A payload without commas is one chunk. */
  lemma {:induction false} OneChunk(parsed: map<string, string>, payload: string)
    requires ',' !in payload
    ensures ParseChunks(parsed, Split(payload, ',')) == ParseChunk(parsed, payload)
  {
    SplitWhole(payload, ',');
    assert [payload][1..] == [];
  }

  lemma {:induction false} LowerScope()
    ensures Lower("scope") == "scope"
  {
    assert "scope"[1..] == "cope" && "cope"[1..] == "ope" && "ope"[1..] == "pe" && "pe"[1..] == "e";
  }

  lemma {:induction false} ParameterKeeps(key: string, s: string)
    requires ',' !in key && ',' !in s
    ensures ',' !in Parameter(key, s)
  {}

  lemma {:induction false} PayloadReadsBack(parsed: map<string, string>, key: string, s: string)
    requires key != "" && !IsSpace(key[0]) && '=' !in key && ',' !in key
    requires ',' !in s
    ensures ParseChunks(parsed, Split(Parameter(key, s), ',')) == parsed[Lower(key) := StripQuotes(s)]
  {
    ParameterKeeps(key, s);
    OneChunk(parsed, Parameter(key, s));
    QuotedReadsBack(parsed, key, s);
  }

  lemma {:induction false} LowerBearer()
    ensures Lower("Bearer") == "bearer"
  {
    assert "Bearer"[1..] == "earer" && "earer"[1..] == "arer" && "arer"[1..] == "rer" && "rer"[1..] == "er";
    assert "er"[1..] == "r";
  }

  /** A text that one word of a challenge can carry. */
  predicate PlainWord(s: string) {
    s != [] && NoBlank(s) && ',' !in s
  }

  predicate PlainWords(scopes: seq<string>) {
    forall i :: 0 <= i < |scopes| ==> PlainWord(scopes[i])
  }

  function TrimFirst(scopes: seq<string>): seq<string> {
    if scopes == [] then [] else [LStripQuotes(scopes[0])] + scopes[1..]
  }

  function TrimLast(scopes: seq<string>): seq<string> {
    if scopes == [] then [] else scopes[..|scopes| - 1] + [RStripQuotes(scopes[|scopes| - 1])]
  }

  /** What a challenge without commas asks for: the scopes, the first and last stripped of quotes at the outer ends. */
  function Asked(scopes: seq<string>): seq<string> {
    NonEmpty(TrimFirst(TrimLast(scopes)))
  }

  /** Every scope is a word without commas, and is still there when the outer quotes are stripped. */
  predicate Survives(scopes: seq<string>) {
    PlainWords(scopes) && forall i :: 0 <= i < |scopes| ==> scopes[i] in Asked(scopes)
  }

  lemma {:induction false} RStripQuotesBlank(s: string)
    ensures RStripQuotes(" " + s) == " " + RStripQuotes(s)
  {
    if s != [] && s[|s| - 1] == '"' {
      assert (" " + s)[..|s|] == " " + s[..|s| - 1];
      RStripQuotesBlank(s[..|s| - 1]);
    }
  }

  lemma {:induction false} RStripQuotesJoin(scopes: seq<string>)
    ensures RStripQuotes(Join(scopes)) == Join(TrimLast(scopes))
  {
    if |scopes| > 1 {
      var s, rest := scopes[0], scopes[1..];
      RStripQuotesJoin(rest);
      RStripQuotesBlank(Join(rest));
      RStripQuotesAfter(s, " " + Join(rest));
      assert TrimLast(scopes) == [s] + TrimLast(rest);
      assert TrimLast(scopes)[1..] == TrimLast(rest);
    }
  }

  lemma {:induction false} LStripQuotesBefore(a: string, b: string)
    requires b == [] || b[0] != '"'
    ensures LStripQuotes(a + b) == LStripQuotes(a) + b
  {
    if a == [] {
      assert a + b == b;
    } else if a[0] == '"' {
      assert (a + b)[1..] == a[1..] + b;
      LStripQuotesBefore(a[1..], b);
    }
  }

  lemma {:induction false} LStripQuotesJoin(scopes: seq<string>)
    ensures LStripQuotes(Join(scopes)) == Join(TrimFirst(scopes))
  {
    if |scopes| > 1 {
      LStripQuotesBefore(scopes[0], " " + Join(scopes[1..]));
      assert TrimFirst(scopes)[1..] == scopes[1..];
    }
  }

  lemma {:induction false} TrimmedPlain(scopes: seq<string>)
    requires PlainWords(scopes)
    ensures NoBlanks(TrimFirst(TrimLast(scopes)))
  {
    if scopes != [] {
      RStripQuotesPart(scopes[|scopes| - 1]);
      LStripQuotesPart(TrimLast(scopes)[0]);
    }
  }

  lemma {:induction false} RStripQuotesPart(s: string)
    requires NoBlank(s)
    ensures NoBlank(RStripQuotes(s))
  {
    if s != [] && s[|s| - 1] == '"' {
      RStripQuotesPart(s[..|s| - 1]);
    }
  }

  lemma {:induction false} LStripQuotesPart(s: string)
    requires NoBlank(s)
    ensures NoBlank(LStripQuotes(s))
  {
    if s != [] && s[0] == '"' {
      LStripQuotesPart(s[1..]);
    }
  }

  /** What the challenge of plain words reads back as. */
  lemma {:induction false} PlainReadsBack(missing: seq<string>)
    requires PlainWords(missing) && missing != []
    ensures Requested(Challenge(missing)) == Asked(missing)
  {
    hide Lower, Split, LStripQuotes, RStripQuotes, Words, Join;
    JoinKeeps(missing, ',');
    ChallengePayload(missing);
    LowerBearer();
    LowerScope();
    PayloadReadsBack(map["scheme" := "bearer"], "scope", Join(missing));
    RStripQuotesJoin(missing);
    LStripQuotesJoin(TrimLast(missing));
    TrimmedPlain(missing);
    WordsJoin(TrimFirst(TrimLast(missing)));
  }

  // --- whatever is parsed holds no comma

  lemma {:induction false} PartitionKeeps(s: string, sep: char, c: char)
    requires c !in s
    ensures c !in Partition(s, sep).0 && c !in Partition(s, sep).1
  {}

  lemma {:induction false} StripKeeps(s: string, c: char)
    requires c !in s
    ensures c !in Strip(s)
  {
    RStripPrefix(s);
    LStripSuffix(RStrip(s));
  }

  lemma {:induction false} LStripQuotesKeeps(s: string, c: char)
    requires c !in s
    ensures c !in LStripQuotes(s)
  {
    if s != [] && s[0] == '"' {
      LStripQuotesKeeps(s[1..], c);
    }
  }

  lemma {:induction false} RStripQuotesKeeps(s: string, c: char)
    requires c !in s
    ensures c !in RStripQuotes(s)
  {
    if s != [] && s[|s| - 1] == '"' {
      RStripQuotesKeeps(s[..|s| - 1], c);
    }
  }

  ghost predicate ScopeHasNoComma(parsed: map<string, string>) {
    "scope" in parsed ==> ',' !in parsed["scope"]
  }

  lemma {:induction false} ChunkKeeps(parsed: map<string, string>, chunk: string)
    requires ScopeHasNoComma(parsed) && ',' !in chunk
    ensures ScopeHasNoComma(ParseChunk(parsed, chunk))
  {
    StripKeeps(chunk, ',');
    PartitionKeeps(Strip(chunk), '=', ',');
    var value := Partition(Strip(chunk), '=').1;
    StripKeeps(value, ',');
    RStripQuotesKeeps(Strip(value), ',');
    LStripQuotesKeeps(RStripQuotes(Strip(value)), ',');
  }

  lemma {:induction false} ChunksKeep(parsed: map<string, string>, chunks: seq<string>)
    requires ScopeHasNoComma(parsed) && forall p :: p in chunks ==> ',' !in p
    ensures ScopeHasNoComma(ParseChunks(parsed, chunks))
    decreases |chunks|
  {
    if chunks != [] {
      ChunkKeeps(parsed, chunks[0]);
      ChunksKeep(ParseChunk(parsed, chunks[0]), chunks[1..]);
    }
  }

  lemma {:induction false} WordsKeep(s: string, c: char)
    requires c !in s
    ensures forall w :: w in Words(s) ==> c !in w
    decreases |s|
  {
    LStripSuffix(s);
    var t := LStrip(s);
    if t != [] {
      WordsKeep(t[WordEnd(t)..], c);
    }
  }

  lemma {:induction false} RequestedHasNoComma(challenge: string)
    ensures NoComma(Requested(challenge))
  {
    if challenge != "" {
      var (scheme, payload) := Partition(challenge, ' ');
      ChunksKeep(map["scheme" := Lower(scheme)], Split(payload, ','));
      var parsed := ParseChallenge(challenge);
      if "scope" in parsed {
        WordsKeep(parsed["scope"], ',');
      }
    }
  }

  lemma {:induction false} WordsArePlain(s: string)
    ensures forall w :: w in Words(s) ==> w != "" && NoBlank(w)
    decreases |s|
  {
    LStripSuffix(s);
    var t := LStrip(s);
    if t != [] {
      WordsArePlain(t[WordEnd(t)..]);
    }
  }

  lemma {:induction false} RequestedArePlain(challenge: string)
    ensures PlainWords(Requested(challenge))
  {
    RequestedHasNoComma(challenge);
    var parsed := ParseChallenge(challenge);
    if "scope" in parsed {
      WordsArePlain(parsed["scope"]);
      var words := Words(parsed["scope"]);
      assert forall i :: 0 <= i < |words| ==> words[i] in words;
    }
  }

  /** Over all texts: a challenge asks for every missing scope exactly when each is a word without commas that the
      stripping of outer quotes leaves. */
  lemma {:induction false} SurvivesIff(missing: seq<string>)
    requires missing != []
    ensures (forall i :: 0 <= i < |missing| ==> missing[i] in Requested(Challenge(missing))) <==> Survives(missing)
  {
    RequestedArePlain(Challenge(missing));
    if PlainWords(missing) {
      PlainReadsBack(missing);
    } else {
      var i :| 0 <= i < |missing| && !PlainWord(missing[i]);
      assert missing[i] !in Requested(Challenge(missing));
    }
  }

  lemma {:induction false} TokensKeepQuotes(missing: seq<string>)
    requires ScopeTokens(missing) && missing != []
    ensures Asked(missing) == missing
  {
    assert TrimLast(missing) == missing;
    assert TrimFirst(missing) == missing;
    NothingEmpty(missing);
  }

  lemma {:induction false} NothingEmpty(words: seq<string>)
    requires forall i :: 0 <= i < |words| ==> words[i] != ""
    ensures NonEmpty(words) == words
  {
    if words != [] {
      NothingEmpty(words[1..]);
      assert words == [words[0]] + words[1..];
    }
  }

  /** A list of scope-tokens survives exactly when no token holds a comma. */
  lemma {:induction false} TokensSurvive(missing: seq<string>)
    requires ScopeTokens(missing) && missing != []
    ensures Survives(missing) <==> NoComma(missing)
  {
    TokensKeepQuotes(missing);
    if NoComma(missing) {
      forall i | 0 <= i < |missing|
        ensures PlainWord(missing[i])
      {
        assert ScopeToken(missing[i]);
      }
    }
  }

  /** The challenge of missing scope-tokens reads back exactly when no token holds a comma. */
  lemma {:induction false} ChallengeRoundTrip(missing: seq<string>)
    requires ScopeTokens(missing) && missing != []
    ensures Requested(Challenge(missing)) == missing <==> NoComma(missing)
  {
    hide ScopeTokens, Asked, Challenge;
    RequestedHasNoComma(Challenge(missing));
    TokensSurvive(missing);
    TokensKeepQuotes(missing);
    if NoComma(missing) {
      PlainReadsBack(missing);
    }
  }

  /** A scope-token with a comma is asked for in vain. */
  lemma {:induction false} CommaScopeIsLost()
    ensures ScopeTokens(["read,write"]) && Requested(Challenge(["read,write"])) != ["read,write"]
  {
    var missing := ["read,write"];
    assert ',' == missing[0][4];
    ChallengeRoundTrip(missing);
  }

  // ------------------------------------------------------------------ challenges with more parameters

  predicate Blank(s: string) {
    forall i :: 0 <= i < |s| ==> IsSpace(s[i])
  }

  lemma {:induction false} LStripBlankHead(blank: string, s: string)
    requires Blank(blank)
    ensures LStrip(blank + s) == LStrip(s)
  {
    if blank == "" {
      assert blank + s == s;
    } else {
      assert (blank + s)[1..] == blank[1..] + s;
      LStripBlankHead(blank[1..], s);
    }
  }

  /** Blanks around a text are stripped, and no more. */
  lemma {:induction false} StripMiddle(before: string, s: string, after: string)
    requires Blank(before) && Blank(after) && s != "" && !IsSpace(s[0]) && !IsSpace(s[|s| - 1])
    ensures Strip(before + s + after) == s
  {
    RStripBlankTail(before + s, after);
    assert (before + s)[|before + s| - 1] == s[|s| - 1];
    LStripBlankHead(before, s);
  }

  /** Blanks around a parameter do not matter. */
  lemma {:induction false} BlanksAroundChunk(parsed: map<string, string>, before: string, chunk: string, after: string)
    requires Blank(before) && Blank(after) && chunk != "" && !IsSpace(chunk[0]) && !IsSpace(chunk[|chunk| - 1])
    ensures ParseChunk(parsed, before + chunk + after) == ParseChunk(parsed, chunk)
  {
    StripMiddle(before, chunk, after);
    StripMiddle("", chunk, "");
    assert "" + chunk + "" == chunk;
  }

  /** A parameter without a name is ignored. */
  lemma {:induction false} NamelessChunk(parsed: map<string, string>, value: string)
    ensures ParseChunk(parsed, "=" + value) == parsed
  {
    RStripConcat("=", value);
  }

  /** Parameters are read one after the other; of two with one name the later one counts. */
  lemma {:induction false} ParseChunksConcat(parsed: map<string, string>, a: seq<string>, b: seq<string>)
    ensures ParseChunks(parsed, a + b) == ParseChunks(ParseChunks(parsed, a), b)
    decreases |a|
  {
    hide ParseChunk;
    if a == [] {
      assert a + b == b;
    } else {
      assert (a + b)[1..] == a[1..] + b;
      ParseChunksConcat(ParseChunk(parsed, a[0]), a[1..], b);
    }
  }
}
