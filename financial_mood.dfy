/** The `analyze-financial-mood` edge function: it reads the caller's id out of the
    bearer token, totals the caller's balances and the period's flows, asks the AI
    gateway for a verdict and reads the EMOJI, TITULO and ANALISE lines out of the
    reply. Base64 and JSON decoding of the token payload, the clock, the database
    queries and the gateway are parameters. */
module FinancialMood {
  import opened Prelude
  import opened Ledger
  import opened Store

  // ---------------------------------------------------------------- substrings

  /** `p` occurs in `s` starting at index i. */
  predicate OccursAt(s: string, p: string, i: int)
  {
    0 <= i && i + |p| <= |s| && forall k :: 0 <= k < |p| ==> s[i + k] == p[k]
  }

  /** The first index at or after i where `p` occurs, as `indexOf` finds it. */
  function FirstFrom(s: string, p: string, i: nat): (r: Option<nat>)
    ensures r.Some? ==> i <= r.value && r.value + |p| <= |s|
    decreases |s| - i
  {
    if i + |p| > |s| then None
    else if OccursAt(s, p, i) then Some(i)
    else FirstFrom(s, p, i + 1)
  }

  lemma {:induction false} FirstFromLeftmost(s: string, p: string, i: nat)
    ensures FirstFrom(s, p, i).Some? ==> i <= FirstFrom(s, p, i).value && OccursAt(s, p, FirstFrom(s, p, i).value)
    ensures FirstFrom(s, p, i).Some? ==> forall m :: i <= m < FirstFrom(s, p, i).value ==> !OccursAt(s, p, m)
    ensures FirstFrom(s, p, i).None? ==> forall m :: i <= m ==> !OccursAt(s, p, m)
    decreases |s| - i
  {
    if i + |p| <= |s| && !OccursAt(s, p, i) {
      FirstFromLeftmost(s, p, i + 1);
    }
  }

  /** `s.replace(p, q)` with a string pattern: only the first occurrence is replaced. */
  function ReplaceFirst(s: string, p: string, q: string): string
  {
    match FirstFrom(s, p, 0)
    case None => s
    case Some(k) => s[..k] + q + s[k + |p|..]
  }

  /** `authHeader.replace("Bearer ", "")` */
  function BearerToken(header: string): string
  {
    ReplaceFirst(header, "Bearer ", "")
  }

  /** A header of the form "Bearer <token>" yields the token. */
  lemma BearerTokenOfScheme(token: string)
    ensures BearerToken("Bearer " + token) == token
  {
    var h := "Bearer " + token;
    assert OccursAt(h, "Bearer ", 0);
    assert h[7..] == token;
  }

  /** A header without "Bearer " anywhere is taken as the token itself. */
  lemma BearerTokenWithoutScheme(header: string)
    requires forall m :: !OccursAt(header, "Bearer ", m)
    ensures BearerToken(header) == header
  {
    FirstFromLeftmost(header, "Bearer ", 0);
  }

  /** Replacing removes exactly one occurrence: the first. */
  lemma ReplaceFirstRemovesOne(s: string, p: string)
    requires exists m :: OccursAt(s, p, m)
    ensures |ReplaceFirst(s, p, "")| == |s| - |p|
  {
    FirstFromLeftmost(s, p, 0);
    var m :| OccursAt(s, p, m);
    assert FirstFrom(s, p, 0).Some?;
  }

  // ---------------------------------------------------------------- split and join

  /** `s.split(sep)` with a one-character separator: the pieces between separators,
      empty ones included, so there is always at least one. */
  function Split(s: string, sep: char): (parts: seq<string>)
    ensures |parts| >= 1
  {
    if s == [] then [[]]
    else if s[0] == sep then [[]] + Split(s[1..], sep)
    else [[s[0]] + Split(s[1..], sep)[0]] + Split(s[1..], sep)[1..]
  }

  /** `parts.join(sep)` */
  function Join(parts: seq<string>, sep: char): string
  {
    if parts == [] then []
    else if |parts| == 1 then parts[0]
    else parts[0] + [sep] + Join(parts[1..], sep)
  }

  /** How many times c occurs in s. */
  function Count(s: string, c: char): nat
  {
    if s == [] then 0 else (if s[0] == c then 1 else 0) + Count(s[1..], c)
  }

  /** Splitting yields one more piece than there are separators. */
  lemma {:induction false} SplitCount(s: string, sep: char)
    ensures |Split(s, sep)| == Count(s, sep) + 1
  {
    if s != [] {
      SplitCount(s[1..], sep);
    }
  }

  /** No piece contains the separator. */
  lemma {:induction false} SplitPieces(s: string, sep: char)
    ensures forall i :: 0 <= i < |Split(s, sep)| ==> sep !in Split(s, sep)[i]
  {
    if s != [] {
      SplitPieces(s[1..], sep);
      var rest := Split(s[1..], sep);
      if s[0] != sep {
        assert forall i :: 1 <= i < |Split(s, sep)| ==> Split(s, sep)[i] == rest[i];
      } else {
        assert forall i :: 1 <= i < |Split(s, sep)| ==> Split(s, sep)[i] == rest[i - 1];
      }
    }
  }

  lemma {:induction false} JoinCons(c: char, parts: seq<string>, sep: char)
    requires |parts| >= 1
    ensures Join([[c] + parts[0]] + parts[1..], sep) == [c] + Join(parts, sep)
  {
    if |parts| > 1 {
      assert ([[c] + parts[0]] + parts[1..])[1..] == parts[1..];
    }
  }

  /** Joining the pieces with the separator gives back the string. */
  lemma {:induction false} JoinSplit(s: string, sep: char)
    ensures Join(Split(s, sep), sep) == s
  {
    if s != [] {
      var rest := Split(s[1..], sep);
      JoinSplit(s[1..], sep);
      if s[0] == sep {
        assert ([[]] + rest)[1..] == rest;
        assert s == [sep] + s[1..];
      } else {
        JoinCons(s[0], rest, sep);
        assert s == [s[0]] + s[1..];
      }
    }
  }

  lemma {:induction false} SplitAppend(a: string, b: string, sep: char)
    requires sep !in a
    ensures Split(a + [sep] + b, sep) == [a] + Split(b, sep)
  {
    if a == [] {
      assert a + [sep] + b == [sep] + b;
      assert ([sep] + b)[1..] == b;
    } else {
      assert (a + [sep] + b)[1..] == a[1..] + [sep] + b;
      assert a == [a[0]] + a[1..];
      SplitAppend(a[1..], b, sep);
    }
  }

  lemma {:induction false} SplitWithout(a: string, sep: char)
    requires sep !in a
    ensures Split(a, sep) == [a]
  {
    if a != [] {
      assert a == [a[0]] + a[1..];
      SplitWithout(a[1..], sep);
    }
  }

  /** Splitting a join of separator-free pieces gives back the pieces. */
  lemma {:induction false} SplitJoin(parts: seq<string>, sep: char)
    requires |parts| >= 1
    requires forall i :: 0 <= i < |parts| ==> sep !in parts[i]
    ensures Split(Join(parts, sep), sep) == parts
  {
    if |parts| == 1 {
      SplitWithout(parts[0], sep);
    } else {
      SplitJoin(parts[1..], sep);
      SplitAppend(parts[0], Join(parts[1..], sep), sep);
      assert parts == [parts[0]] + parts[1..];
    }
  }

  /** `token.split(".").length === 3`: a token with exactly two dots. */
  lemma TokenShape(token: string)
    ensures |Split(token, '.')| == 3 <==> Count(token, '.') == 2
  {
    SplitCount(token, '.');
  }

  // ---------------------------------------------------------------- the caller

  /** `JSON.parse(atob(tokenParts[1]))`: the `sub` claim, if the payload decodes,
      or the message of the exception the decoding throws. */
  datatype Payload = Undecodable(message: string) | Claims(sub: Option<string>)

  datatype Reason =
    | KeyMissing
    | NoAuthorization
    | BadToken
    | Unreadable(message: string)
    | NoUser
    | ApiError(status: nat)

  /** The `error` text of the 500 response for each reason. */
  function ErrorText(r: Reason): string
  {
    match r
    case KeyMissing => "LOVABLE_API_KEY não configurada"
    case NoAuthorization => "Sem autorização"
    case BadToken => "Token inválido"
    case Unreadable(message) => message
    case NoUser => "Usuário não autenticado"
    case ApiError(status) => "Erro da API: " + Decimal(status)
  }

  /** The guard chain that ends in the caller's id: key, header, token shape, payload, `sub`. */
  function Caller(keyConfigured: bool, authHeader: Option<string>, decode: string -> Payload): Result<string, Reason>
  {
    if !keyConfigured then Err(KeyMissing)
    else if authHeader.None? || authHeader.value == "" then Err(NoAuthorization)
    else if |Split(BearerToken(authHeader.value), '.')| != 3 then Err(BadToken)
    else match decode(Split(BearerToken(authHeader.value), '.')[1])
      case Undecodable(m) => Err(Unreadable(m))
      case Claims(sub) => if sub.None? || sub.value == "" then Err(NoUser) else Ok(sub.value)
  }

  /** A caller is only identified with the key configured, a non-empty header whose
      token has exactly two dots, and a non-empty `sub`; a token with any other number
      of dots is refused as "Token inválido". */
  lemma CallerChecks(keyConfigured: bool, authHeader: Option<string>, decode: string -> Payload)
    ensures Caller(keyConfigured, authHeader, decode).Ok? ==>
              keyConfigured && authHeader.Some? && Count(BearerToken(authHeader.value), '.') == 2
              && Caller(keyConfigured, authHeader, decode).value != ""
    ensures Caller(keyConfigured, authHeader, decode) == Err(BadToken) <==>
              keyConfigured && authHeader.Some? && authHeader.value != "" && Count(BearerToken(authHeader.value), '.') != 2
  {
    if authHeader.Some? {
      TokenShape(BearerToken(authHeader.value));
    }
  }

  /** A well-formed bearer token: the middle of its three pieces is what gets decoded. */
  lemma {:induction false} BearerPayloadDecoded(header: string, payload: string, signature: string, decode: string -> Payload, user: string)
    requires '.' !in header && '.' !in payload && '.' !in signature
    requires decode(payload) == Claims(Some(user)) && user != ""
    ensures Caller(true, Some("Bearer " + (header + "." + payload + "." + signature)), decode) == Ok(user)
  {
    var token := header + "." + payload + "." + signature;
    BearerTokenOfScheme(token);
    JoinThree(header, payload, signature, '.');
    SplitJoin([header, payload, signature], '.');
  }

  lemma JoinThree(a: string, b: string, c: string, sep: char)
    ensures Join([a, b, c], sep) == a + [sep] + b + [sep] + c
  {
    assert [a, b, c][1..] == [b, c];
    assert [b, c][1..] == [c];
    assert Join([b, c], sep) == b + [sep] + c;
    AppendAssoc(a + [sep], b + [sep], c);
  }

  // ---------------------------------------------------------------- the figures

  /** Where the period's rows start. */
  datatype Window = StartOfDay | StartOfMonth

  /** `timeFilter` and `periodLabel`: the month unless the period is exactly "day". */
  method SelectPeriod(period: string) returns (window: Window, caption: string)
    ensures period == "day" ==> window == StartOfDay && caption == "do dia"
    ensures period != "day" ==> window == StartOfMonth && caption == "do mês"
  {
    window := StartOfMonth;
    caption := "do mês";
    if period == "day" {
      window := StartOfDay;
      caption := "do dia";
    }
  }

  /** `accounts.reduce((acc, a) => acc + Number(a.saldo_atual), 0)` over the caller's accounts. */
  function Holdings(accounts: seq<Account>, user: string): real
  {
    if accounts == [] then 0.0
    else Holdings(accounts[..|accounts| - 1], user)
         + (if accounts[|accounts| - 1].userId == user then accounts[|accounts| - 1].balance else 0.0)
  }

  /** With no negative balances, the total covers each single account of the caller. */
  lemma {:induction false} HoldingsCoverEach(accounts: seq<Account>, user: string, a: Account)
    requires a in accounts && a.userId == user
    requires forall b :: b in accounts && b.userId == user ==> b.balance >= 0.0
    ensures Holdings(accounts, user) >= a.balance
  {
    var init := accounts[..|accounts| - 1];
    var last := accounts[|accounts| - 1];
    assert accounts == init + [last];
    HoldingsNonNegative(init, user);
    if a != last {
      HoldingsCoverEach(init, user, a);
    }
  }

  lemma {:induction false} HoldingsNonNegative(accounts: seq<Account>, user: string)
    requires forall b :: b in accounts && b.userId == user ==> b.balance >= 0.0
    ensures Holdings(accounts, user) >= 0.0
  {
    if accounts != [] {
      assert accounts == accounts[..|accounts| - 1] + [accounts[|accounts| - 1]];
      HoldingsNonNegative(accounts[..|accounts| - 1], user);
    }
  }

  /** The mood card's total balance is never below the principal balance the rest of
      the app shows, as long as no account of the caller is overdrawn. */
  lemma HoldingsCoverPrincipal(accounts: seq<Account>, user: string)
    requires forall b :: b in accounts && b.userId == user ==> b.balance >= 0.0
    ensures Holdings(accounts, user) >= PrincipalBalance(accounts, user)
  {
    HoldingsNonNegative(accounts, user);
    if PrincipalAccount(accounts, user).Some? {
      HoldingsCoverEach(accounts, user, PrincipalAccount(accounts, user).value);
    }
  }

  /** The `dados` block of the response. */
  datatype Figures = Figures(total: real, income: real, expenses: real, net: real, period: string)

  // ---------------------------------------------------------------- trimming

  function TrimStart(s: string): (r: string)
    ensures |r| <= |s|
    ensures r == s[|s| - |r|..]
  {
    if s != [] && IsSpace(s[0]) then TrimStart(s[1..]) else s
  }

  function TrimEnd(s: string): (r: string)
    ensures |r| <= |s|
    ensures r == s[..|r|]
  {
    if s != [] && IsSpace(s[|s| - 1]) then TrimEnd(s[..|s| - 1]) else s
  }

  /** `String.prototype.trim` */
  function Trim(s: string): string
  {
    TrimEnd(TrimStart(s))
  }

  lemma {:induction false} TrimStartEdge(s: string)
    ensures TrimStart(s) == [] || !IsSpace(TrimStart(s)[0])
    ensures TrimStart(s) == [] <==> forall i :: 0 <= i < |s| ==> IsSpace(s[i])
  {
    if s != [] && IsSpace(s[0]) {
      TrimStartEdge(s[1..]);
      assert forall i :: 1 <= i < |s| ==> s[i] == s[1..][i - 1];
    }
  }

  lemma {:induction false} TrimEndEdge(s: string)
    ensures TrimEnd(s) == [] || !IsSpace(TrimEnd(s)[|TrimEnd(s)| - 1])
    ensures s != [] && !IsSpace(s[0]) ==> TrimEnd(s) != [] && TrimEnd(s)[0] == s[0]
  {
    if s != [] && IsSpace(s[|s| - 1]) {
      TrimEndEdge(s[..|s| - 1]);
    }
  }

  /** Trimming leaves no white space at either end, and leaves nothing exactly
      when the text is all white space. */
  lemma TrimEdges(s: string)
    ensures Trim(s) == [] || (!IsSpace(Trim(s)[0]) && !IsSpace(Trim(s)[|Trim(s)| - 1]))
    ensures Trim(s) == [] <==> forall i :: 0 <= i < |s| ==> IsSpace(s[i])
  {
    TrimStartEdge(s);
    TrimEndEdge(TrimStart(s));
  }

  /** Trimming only removes characters: what is left is a piece of the text. */
  lemma TrimWithin(s: string)
    ensures forall c :: c in Trim(s) ==> c in s
  {
    var t := TrimStart(s);
    assert forall c :: c in t ==> c in s;
    assert forall c :: c in TrimEnd(t) ==> c in t;
  }

  lemma {:induction false} TrimStartSkips(sp: string, v: string)
    requires forall i :: 0 <= i < |sp| ==> IsSpace(sp[i])
    requires v != [] && !IsSpace(v[0])
    ensures TrimStart(sp + v) == v
  {
    if sp != [] {
      assert (sp + v)[1..] == sp[1..] + v;
      TrimStartSkips(sp[1..], v);
    }
  }

  // ---------------------------------------------------------------- reading a field

  /** The length of the run of characters satisfying `\s` from j. */
  function SpaceRun(s: string, j: nat): (r: nat)
    requires j <= |s|
    ensures j + r <= |s|
    decreases |s| - j
  {
    if j < |s| && IsSpace(s[j]) then 1 + SpaceRun(s, j + 1) else 0
  }

  /** The length of the run of characters `.` matches from j: up to the end of the line. */
  function LineRun(s: string, j: nat): (r: nat)
    requires j <= |s|
    ensures j + r <= |s|
    decreases |s| - j
  {
    if j < |s| && !IsLineTerminator(s[j]) then 1 + LineRun(s, j + 1) else 0
  }

  /** Backtracking of the greedy `\s*`: the longest k at most the given one after
      which `.+` can match at least one character. */
  function Backoff(s: string, j: nat, k: nat): (r: Option<nat>)
    ensures r.Some? ==> r.value <= k && j + r.value < |s|
  {
    if j + k < |s| && !IsLineTerminator(s[j + k]) then Some(k)
    else if k == 0 then None
    else Backoff(s, j, k - 1)
  }

  /** What `\s*(.+)` captures at j, if it matches there. */
  function CaptureAt(s: string, j: nat): Option<string>
    requires j <= |s|
  {
    match Backoff(s, j, SpaceRun(s, j))
    case None => None
    case Some(k) => Some(s[j + k..j + k + LineRun(s, j + k)])
  }

  /** `s.match(/LABEL:\s*(.+)/)` from index i on: the capture of the leftmost match. */
  function MatchFrom(s: string, marker: string, i: nat): Option<string>
    decreases |s| - i
  {
    if i + |marker| > |s| then None
    else if OccursAt(s, marker, i) && CaptureAt(s, i + |marker|).Some? then CaptureAt(s, i + |marker|)
    else MatchFrom(s, marker, i + 1)
  }

  /** `match ? match[1].trim() : fallback`, as written: `\s` also matches line breaks,
      so the capture may come from a later line than the marker's. */
  function FieldAsWritten(s: string, marker: string, fallback: string): string
  {
    match MatchFrom(s, marker, 0)
    case None => fallback
    case Some(c) => Trim(c)
  }

  /** The rest of the line after index j. */
  function LineAfter(s: string, j: nat): string
    requires j <= |s|
  {
    s[j..j + LineRun(s, j)]
  }

  /** The trimmed rest of the line after the marker at index m. */
  function TextAfter(s: string, marker: string, m: nat): (r: string)
    requires m + |marker| <= |s|
    ensures r == [] || (!IsSpace(r[0]) && !IsSpace(r[|r| - 1]))
    ensures forall c :: c in r ==> !IsLineTerminator(c)
  {
    var j := m + |marker|;
    TrimEdges(LineAfter(s, j));
    TrimWithin(LineAfter(s, j));
    LineAfterOneLine(s, j);
    Trim(LineAfter(s, j))
  }

  /** The leftmost occurrence of the marker, from i on, that has text on its own line. */
  function LineFrom(s: string, marker: string, i: nat): Option<string>
    decreases |s| - i
  {
    if i + |marker| > |s| then None
    else if OccursAt(s, marker, i) && TextAfter(s, marker, i) != [] then Some(TextAfter(s, marker, i))
    else LineFrom(s, marker, i + 1)
  }

  /** The field as the reply format intends it: the trimmed rest of the marker's line,
      or the fallback when the marker is missing or its line is blank. */
  function Field(s: string, marker: string, fallback: string): string
  {
    match LineFrom(s, marker, 0)
    case None => fallback
    case Some(v) => v
  }

  /** A line read from index i on comes from an occurrence m of the marker at or after i:
      it is the trimmed rest of that occurrence's line, and it is not empty. */
  lemma {:induction false} LineFromFound(s: string, marker: string, i: nat) returns (m: nat)
    requires LineFrom(s, marker, i).Some?
    ensures i <= m && m + |marker| <= |s| && OccursAt(s, marker, m)
    ensures LineFrom(s, marker, i).value == TextAfter(s, marker, m)
    ensures LineFrom(s, marker, i).value != []
    decreases |s| - i
  {
    if OccursAt(s, marker, i) && TextAfter(s, marker, i) != [] {
      m := i;
    } else {
      assert LineFrom(s, marker, i) == LineFrom(s, marker, i + 1);
      m := LineFromFound(s, marker, i + 1);
    }
  }

  lemma {:induction false} LineFromMissing(s: string, marker: string, i: nat)
    requires forall m :: i <= m ==> !OccursAt(s, marker, m)
    ensures LineFrom(s, marker, i).None?
    decreases |s| - i
  {
    if i + |marker| <= |s| {
      assert !OccursAt(s, marker, i);
      LineFromMissing(s, marker, i + 1);
    }
  }

  /** The rest of a line holds no line break. */
  lemma LineAfterOneLine(s: string, j: nat)
    requires j <= |s|
    ensures forall c :: c in LineAfter(s, j) ==> !IsLineTerminator(c)
  {
    forall c | c in LineAfter(s, j)
      ensures !IsLineTerminator(c)
    {
      var k :| 0 <= k < LineRun(s, j) && LineAfter(s, j)[k] == c;
      LineRunClean(s, j, k);
    }
  }

  lemma {:induction false} LineRunClean(s: string, j: nat, k: nat)
    requires j <= |s| && k < LineRun(s, j)
    ensures !IsLineTerminator(s[j + k])
    decreases |s| - j
  {
    if k > 0 {
      LineRunClean(s, j + 1, k - 1);
    }
  }

  /** Without its marker in the reply, a field takes its fallback. */
  lemma FieldFallback(s: string, marker: string, fallback: string)
    requires forall m :: !OccursAt(s, marker, m)
    ensures Field(s, marker, fallback) == fallback
  {
    LineFromMissing(s, marker, 0);
  }

  /** A field that is not the fallback is the non-empty text after an occurrence m of its
      marker, trimmed and on one line as `TextAfter` states. */
  lemma FieldIsOwnLine(s: string, marker: string, fallback: string) returns (m: nat)
    requires Field(s, marker, fallback) != fallback
    ensures m + |marker| <= |s| && OccursAt(s, marker, m)
    ensures Field(s, marker, fallback) == TextAfter(s, marker, m) != []
  {
    m := LineFromFound(s, marker, 0);
  }

  lemma {:induction false} LineRunOver(s: string, start: nat, v: string, j: nat)
    requires start + |v| <= |s| && j <= |v|
    requires s[start..start + |v|] == v
    requires forall i :: 0 <= i < |v| ==> !IsLineTerminator(v[i])
    requires start + |v| == |s| || IsLineTerminator(s[start + |v|])
    ensures LineRun(s, start + j) == |v| - j
    decreases |v| - j
  {
    if j < |v| {
      assert s[start + j] == v[j];
      LineRunOver(s, start, v, j + 1);
    }
  }

  lemma TrimSkips(sp: string, v: string)
    requires forall i :: 0 <= i < |sp| ==> IsSpace(sp[i])
    requires v != [] && !IsSpace(v[0])
    ensures Trim(sp + v) == Trim(v) && Trim(v) != []
  {
    TrimStartSkips(sp, v);
    TrimStartSkips([], v);
    assert [] + v == v;
    TrimEdges(v);
  }

  lemma FieldAtStart(s: string, marker: string, fallback: string)
    requires OccursAt(s, marker, 0) && TextAfter(s, marker, 0) != []
    ensures Field(s, marker, fallback) == TextAfter(s, marker, 0)
  {
  }

  /** A reply line "MARKER: text" ending the reply or followed by a line break is read
      as the trimmed text. */
  lemma FieldReadsLine(marker: string, sp: string, v: string, post: string, fallback: string)
    requires forall i :: 0 <= i < |sp| ==> IsSpace(sp[i]) && !IsLineTerminator(sp[i])
    requires v != [] && !IsSpace(v[0])
    requires forall i :: 0 <= i < |v| ==> !IsLineTerminator(v[i])
    requires post == [] || IsLineTerminator(post[0])
    ensures Field(marker + sp + v + post, marker, fallback) == Trim(v)
  {
    var s := marker + sp + v + post;
    var line := sp + v;
    assert s == marker + line + post;
    assert OccursAt(s, marker, 0);
    assert forall i :: 0 <= i < |line| ==> !IsLineTerminator(line[i]);
    assert s[|marker|..|marker| + |line|] == line;
    assert |marker| + |line| == |s| || s[|marker| + |line|] == post[0];
    LineRunOver(s, |marker|, line, 0);
    assert LineAfter(s, |marker|) == line;
    TrimSkips(sp, v);
    FieldAtStart(s, marker, fallback);
  }

  lemma {:induction false} SpaceRunOver(s: string, start: nat, sp: string, j: nat)
    requires start + |sp| < |s| && j <= |sp|
    requires s[start..start + |sp|] == sp
    requires forall i :: 0 <= i < |sp| ==> IsSpace(sp[i])
    requires !IsSpace(s[start + |sp|])
    ensures SpaceRun(s, start + j) == |sp| - j
    decreases |sp| - j
  {
    if j < |sp| {
      assert s[start + j] == sp[j];
      SpaceRunOver(s, start, sp, j + 1);
    }
  }

  lemma CaptureReadsLine(s: string, j: nat, sp: string, v: string)
    requires j + |sp| + |v| <= |s|
    requires s[j..j + |sp|] == sp && s[j + |sp|..j + |sp| + |v|] == v
    requires forall i :: 0 <= i < |sp| ==> IsSpace(sp[i])
    requires v != [] && !IsSpace(v[0]) && !IsLineTerminator(v[0])
    requires forall i :: 0 <= i < |v| ==> !IsLineTerminator(v[i])
    requires j + |sp| + |v| == |s| || IsLineTerminator(s[j + |sp| + |v|])
    ensures CaptureAt(s, j) == Some(v)
  {
    assert s[j + |sp|] == v[0];
    SpaceRunOver(s, j, sp, 0);
    assert Backoff(s, j, |sp|) == Some(|sp|);
    LineRunOver(s, j + |sp|, v, 0);
  }

  /** On a well-formed line the written pattern reads the same text, so the two
      readings differ only where the marker's line is blank. */
  lemma FieldAsWrittenReadsLine(marker: string, sp: string, v: string, post: string, fallback: string)
    requires forall i :: 0 <= i < |sp| ==> IsSpace(sp[i]) && !IsLineTerminator(sp[i])
    requires v != [] && !IsSpace(v[0])
    requires forall i :: 0 <= i < |v| ==> !IsLineTerminator(v[i])
    requires post == [] || IsLineTerminator(post[0])
    ensures FieldAsWritten(marker + sp + v + post, marker, fallback) == Trim(v)
  {
    var s := marker + sp + v + post;
    var j := |marker|;
    assert OccursAt(s, marker, 0);
    assert s[j..j + |sp|] == sp;
    assert s[j + |sp|..j + |sp| + |v|] == v;
    assert j + |sp| + |v| == |s| || s[j + |sp| + |v|] == post[0];
    CaptureReadsLine(s, j, sp, v);
  }

  /** The reply "EMOJI:" with nothing after it on the line: the written pattern lets
      `\s*` run over the line break, so the emoji becomes the next line's text; the
      field as intended falls back to the neutral face. */
  lemma BlankLineTakesNextLine()
    ensures FieldAsWritten("EMOJI:\nX", "EMOJI:", "😐") == "X"
    ensures Field("EMOJI:\nX", "EMOJI:", "😐") == "😐"
  {
    BlankLineCaptured("EMOJI:\nX");
    assert Trim("X") == "X";
    BlankLineSkipped("EMOJI:\nX");
  }

  lemma BlankLineCaptured(s: string)
    requires s == "EMOJI:\nX"
    ensures MatchFrom(s, "EMOJI:", 0) == Some("X")
  {
    assert OccursAt(s, "EMOJI:", 0);
    assert SpaceRun(s, 8) == 0;
    assert SpaceRun(s, 7) == 0;
    assert SpaceRun(s, 6) == 1;
    assert LineRun(s, 8) == 0;
    assert LineRun(s, 7) == 1;
    assert Backoff(s, 6, 1) == Some(1);
    assert s[7..8] == "X";
    assert CaptureAt(s, 6) == Some("X");
  }

  lemma BlankLineSkipped(s: string)
    requires s == "EMOJI:\nX"
    ensures LineFrom(s, "EMOJI:", 0) == None
  {
    assert LineRun(s, 6) == 0;
    assert LineAfter(s, 6) == [];
    assert TextAfter(s, "EMOJI:", 0) == [];
    assert s[1] != 'E' && s[2] != 'E';
    assert !OccursAt(s, "EMOJI:", 1);
    assert !OccursAt(s, "EMOJI:", 2);
    assert LineFrom(s, "EMOJI:", 3) == None;
    assert LineFrom(s, "EMOJI:", 2) == None;
    assert LineFrom(s, "EMOJI:", 1) == None;
  }

  // ---------------------------------------------------------------- the handler

  /** The gateway's answer: a non-ok status, or the first choice's message content. */
  datatype Reply = NotOk(status: nat) | Content(text: string)

  /** The 500 response with its reason, or the verdict with the figures it was based on. */
  datatype Verdict = Failed(reason: Reason) | Mood(emoji: string, title: string, analysis: string, figures: Figures)

  /** The handler, step by step: key, header, token and payload checks; the caller's
      accounts; the period's rows; the gateway; the three fields. `rowsSince` stands
      for the `transactions` query of the caller from the start of a window. */
  method Analyze(period: string, keyConfigured: bool, authHeader: Option<string>, decode: string -> Payload,
                 accounts: seq<Account>, rowsSince: Window -> seq<Transaction>, reply: Reply) returns (r: Verdict)
    ensures Caller(keyConfigured, authHeader, decode).Err? ==> r == Failed(Caller(keyConfigured, authHeader, decode).error)
    ensures Caller(keyConfigured, authHeader, decode).Ok? && reply.NotOk? ==> r == Failed(ApiError(reply.status))
    ensures r.Mood? <==> Caller(keyConfigured, authHeader, decode).Ok? && reply.Content?
    ensures r.Mood? ==>
              var user := Caller(keyConfigured, authHeader, decode).value;
              var rows := rowsSince(if period == "day" then StartOfDay else StartOfMonth);
              r.figures == Figures(Holdings(accounts, user), Inflow(rows), Outflow(rows), Inflow(rows) - Outflow(rows),
                                   if period == "day" then "do dia" else "do mês")
    ensures r.Mood? ==> r.emoji == Field(reply.text, "EMOJI:", "😐")
                        && r.title == Field(reply.text, "TITULO:", "Situação neutra")
                        && r.analysis == Field(reply.text, "ANALISE:", "Dados insuficientes para análise")
  {
    if !keyConfigured {
      return Failed(KeyMissing);
    }
    if authHeader.None? || authHeader.value == "" {
      return Failed(NoAuthorization);
    }
    var token := BearerToken(authHeader.value);
    var parts := Split(token, '.');
    if |parts| != 3 {
      return Failed(BadToken);
    }
    var payload := decode(parts[1]);
    if payload.Undecodable? {
      return Failed(Unreadable(payload.message));
    }
    if payload.sub.None? || payload.sub.value == "" {
      return Failed(NoUser);
    }
    var user := payload.sub.value;
    var total := Holdings(accounts, user);
    var window, caption := SelectPeriod(period);
    var rows := rowsSince(window);
    var expenses := Outflow(rows);
    var income := Inflow(rows);
    var figures := Figures(total, income, expenses, income - expenses, caption);
    match reply {
      case NotOk(status) =>
        r := Failed(ApiError(status));
      case Content(text) =>
        r := Mood(Field(text, "EMOJI:", "😐"), Field(text, "TITULO:", "Situação neutra"),
                  Field(text, "ANALISE:", "Dados insuficientes para análise"), figures);
    }
  }
}
