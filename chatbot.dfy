/** The assistant chat (`src/components/ChatBot.tsx`): the `[ATALHO:name]` shortcut
    tokenizer that turns a reply into text and buttons, the shortcut table, and the
    chat window's message history. */
module Chatbot {
  import opened Prelude

  /** `\w` without the `u` flag: ASCII letters, digits and the underscore. */
  predicate IsWord(c: char)
  {
    'a' <= c <= 'z' || 'A' <= c <= 'Z' || '0' <= c <= '9' || c == '_'
  }

  const Opening := "[ATALHO:"

  /** The length of the run of word characters starting at `j`. */
  function WordRun(s: string, j: nat): (r: nat)
    requires j <= |s|
    ensures j + r <= |s|
    decreases |s| - j
  {
    if j < |s| && IsWord(s[j]) then 1 + WordRun(s, j + 1) else 0
  }

  /** The run is maximal: every character in it is a word character and the one after
      it, if any, is not. */
  lemma {:induction false} WordRunSpan(s: string, j: nat)
    requires j <= |s|
    ensures forall k :: j <= k < j + WordRun(s, j) ==> IsWord(s[k])
    ensures j + WordRun(s, j) < |s| ==> !IsWord(s[j + WordRun(s, j)])
    decreases |s| - j
  {
    if j < |s| && IsWord(s[j]) {
      WordRunSpan(s, j + 1);
    }
  }

  /** A whole string of the form `\w+-?\w*`. */
  predicate Shape(n: string)
  {
    var a := WordRun(n, 0);
    a >= 1 && (a == |n| || (n[a] == '-' && a + 1 + WordRun(n, a + 1) == |n|))
  }

  /** Inside a slice, a run of word characters that ends within the slice is the same
      run as in the whole string. */
  lemma {:induction false} WordRunSlice(s: string, lo: nat, hi: nat, m: nat)
    requires lo <= hi <= |s| && m <= hi - lo
    requires lo + m + WordRun(s, lo + m) <= hi
    ensures WordRun(s[lo..hi], m) == WordRun(s, lo + m)
    decreases hi - lo - m
  {
    if lo + m < hi && IsWord(s[lo + m]) {
      WordRunSlice(s, lo, hi, m + 1);
    }
  }

  lemma {:induction false} WordRunSliceBack(s: string, lo: nat, hi: nat, m: nat)
    requires lo <= hi <= |s| && m <= hi - lo
    requires m + WordRun(s[lo..hi], m) < hi - lo
    ensures WordRun(s, lo + m) == WordRun(s[lo..hi], m)
    decreases hi - lo - m
  {
    if IsWord(s[lo + m]) {
      WordRunSliceBack(s, lo, hi, m + 1);
    }
  }

  /** `[ATALHO:` starts at `i`, compared character by character. */
  predicate OpensAt(s: string, i: nat)
  {
    && i + |Opening| <= |s|
    && s[i] == '[' && s[i + 1] == 'A' && s[i + 2] == 'T' && s[i + 3] == 'A'
    && s[i + 4] == 'L' && s[i + 5] == 'H' && s[i + 6] == 'O' && s[i + 7] == ':'
  }

  lemma OpensAtSlice(s: string, i: nat)
    requires OpensAt(s, i)
    ensures s[i..i + |Opening|] == Opening
  {
  }

  /** Where a name starting at `j` ends: a run of word characters, then, after an
      optional hyphen, another. */
  function NameEnd(s: string, j: nat): (r: nat)
    requires j <= |s|
    ensures j <= r <= |s|
  {
    var k := j + WordRun(s, j);
    if k < |s| && s[k] == '-' then k + 1 + WordRun(s, k + 1) else k
  }

  /** The length of the match of `\[ATALHO:(\w+-?\w*)\]` starting exactly at `i`, if
      there is one. Word runs are maximal and neither `-` nor `]` is a word character,
      so backtracking cannot produce any other match. */
  function MatchAt(s: string, i: nat): (r: Option<nat>)
    requires i <= |s|
    ensures r.Some? ==> i + r.value <= |s| && r.value >= |Opening| + 2
  {
    if OpensAt(s, i) && WordRun(s, i + |Opening|) >= 1 then
      var e := NameEnd(s, i + |Opening|);
      if e < |s| && s[e] == ']' then Some(e + 1 - i) else None
    else None
  }

  /** A match opens with `[ATALHO:`, holds a non-empty run of word characters and ends
      with the `]` right after its name. */
  lemma MatchIs(s: string, i: nat)
    requires i <= |s| && MatchAt(s, i).Some?
    ensures OpensAt(s, i) && WordRun(s, i + |Opening|) >= 1
    ensures MatchAt(s, i).value == NameEnd(s, i + |Opening|) + 1 - i
    ensures s[i + MatchAt(s, i).value - 1] == ']'
  {
  }

  /** `match.index + match[0].length`: where the token starting at `i` ends. */
  function TokenEnd(s: string, i: nat): (r: nat)
    requires i <= |s| && MatchAt(s, i).Some?
    ensures i + |Opening| + 2 <= r <= |s|
  {
    i + MatchAt(s, i).value
  }

  /** `match[1]`: the name between `[ATALHO:` and `]`. */
  function Captured(s: string, i: nat): string
    requires i <= |s| && MatchAt(s, i).Some?
  {
    s[i + |Opening|..TokenEnd(s, i) - 1]
  }

  /** The name between `[ATALHO:` and `]` of a match has the pattern's shape. */
  lemma MatchNameShaped(s: string, i: nat)
    requires i <= |s| && MatchAt(s, i).Some?
    ensures Shape(Captured(s, i))
  {
    MatchIs(s, i);
    var j := i + |Opening|;
    var a := WordRun(s, j);
    var k := j + a;
    var e := NameEnd(s, j);
    assert Captured(s, i) == s[j..e];
    WordRunSlice(s, j, e, 0);
    if k < e {
      WordRunSlice(s, j, e, a + 1);
    }
  }

  /** A name ending inside a slice ends at the same place in the whole string. */
  lemma NameEndSlice(s: string, lo: nat, hi: nat, j: nat)
    requires lo <= hi <= |s| && j <= hi - lo
    requires NameEnd(s[lo..hi], j) < hi - lo
    ensures WordRun(s, lo + j) == WordRun(s[lo..hi], j)
    ensures NameEnd(s, lo + j) == lo + NameEnd(s[lo..hi], j)
  {
    var t := s[lo..hi];
    var k := j + WordRun(t, j);
    WordRunSliceBack(s, lo, hi, j);
    assert t[k] == s[lo + k];
    if t[k] == '-' {
      WordRunSliceBack(s, lo, hi, k + 1);
    }
  }

  /** A match found inside a slice is a match of the whole string too. */
  lemma SliceMatch(s: string, lo: nat, hi: nat, i: nat)
    requires lo <= hi <= |s| && i <= hi - lo
    requires MatchAt(s[lo..hi], i).Some?
    ensures MatchAt(s, lo + i) == MatchAt(s[lo..hi], i)
  {
    var t := s[lo..hi];
    var j := i + |Opening|;
    MatchIs(t, i);
    assert OpensAt(s, lo + i) by {
      assert t[i] == s[lo + i] && t[i + 1] == s[lo + i + 1] && t[i + 2] == s[lo + i + 2];
      assert t[i + 3] == s[lo + i + 3] && t[i + 4] == s[lo + i + 4] && t[i + 5] == s[lo + i + 5];
      assert t[i + 6] == s[lo + i + 6] && t[i + 7] == s[lo + i + 7];
    }
    var e := NameEnd(t, j);
    NameEndSlice(s, lo, hi, j);
    assert t[e] == s[lo + e];
  }

  /** `shortcutRegex.exec` from `from`: the leftmost match at or after `from`. */
  function NextMatch(s: string, from: nat): (r: Option<nat>)
    requires from <= |s|
    ensures r.Some? ==> from <= r.value < |s| && MatchAt(s, r.value).Some?
    decreases |s| - from
  {
    if from == |s| then None
    else if MatchAt(s, from).Some? then Some(from)
    else NextMatch(s, from + 1)
  }

  /** The match found is the leftmost one: no match starts between `from` and it, nor
      anywhere after `from` when none is found. */
  lemma {:induction false} NextMatchLeftmost(s: string, from: nat)
    requires from <= |s|
    ensures NextMatch(s, from).Some? ==> forall j :: from <= j < NextMatch(s, from).value ==> MatchAt(s, j).None?
    ensures NextMatch(s, from).None? ==> forall j :: from <= j < |s| ==> MatchAt(s, j).None?
    decreases |s| - from
  {
    if from < |s| && MatchAt(s, from).None? {
      NextMatchLeftmost(s, from + 1);
    }
  }

  datatype Part = TextPart(text: string) | Button(name: string)

  /** The parts `parseMessageWithShortcuts` emits from `lastIndex = last` on: the text
      before each match (when there is any), a button per match, and the remaining
      text. */
  function Tokens(s: string, last: nat): seq<Part>
    requires last <= |s|
    decreases |s| - last
  {
    match NextMatch(s, last)
    case None => if last < |s| then [TextPart(s[last..])] else []
    case Some(i) => Head(s, last, i) + Tokens(s, TokenEnd(s, i))
  }

  /** The parts for one match at `i`: the text since `last`, when there is any, and
      the button. */
  function Head(s: string, last: nat, i: nat): seq<Part>
    requires last <= i <= |s| && MatchAt(s, i).Some?
  {
    (if i > last then [TextPart(s[last..i])] else [])
      + [Button(Captured(s, i))]
  }

  /** The head renders as the text from `last` to the end of the token. */
  lemma HeadRender(s: string, last: nat, i: nat)
    requires last <= i <= |s| && MatchAt(s, i).Some?
    ensures Render(Head(s, last, i)) == s[last..TokenEnd(s, i)]
  {
    var name := Captured(s, i);
    var pre := if i > last then [TextPart(s[last..i])] else [];
    RenderAppend(pre, [Button(name)]);
    if i > last {
      RenderSingle(TextPart(s[last..i]));
    } else {
      assert s[last..i] == [];
    }
    RenderSingle(Button(name));
    TokenText(s, i);
    SplitSlice(s, last, i, TokenEnd(s, i));
  }

  function RenderPart(p: Part): string
  {
    match p
    case TextPart(t) => t
    case Button(n) => Opening + n + "]"
  }

  /** The text a sequence of parts stands for: text as is, a button as its token. */
  function Render(ps: seq<Part>): string
  {
    if ps == [] then "" else RenderPart(ps[0]) + Render(ps[1..])
  }

  lemma {:induction false} RenderAppend(a: seq<Part>, b: seq<Part>)
    ensures Render(a + b) == Render(a) + Render(b)
  {
    if a == [] {
      assert a + b == b;
    } else {
      assert (a + b)[0] == a[0];
      assert (a + b)[1..] == a[1..] + b;
      RenderAppend(a[1..], b);
      calc {
        Render(a + b);
        RenderPart(a[0]) + Render(a[1..] + b);
        RenderPart(a[0]) + (Render(a[1..]) + Render(b));
        (RenderPart(a[0]) + Render(a[1..])) + Render(b);
      }
    }
  }

  /** Concatenating the parts in order gives back the text they came from. */
  lemma {:induction false} TokensRender(s: string, last: nat)
    requires last <= |s|
    ensures Render(Tokens(s, last)) == s[last..]
    decreases |s| - last
  {
    match NextMatch(s, last)
    case None =>
      if last < |s| {
        RenderSingle(TextPart(s[last..]));
      }
    case Some(i) =>
      TokensRender(s, TokenEnd(s, i));
      TokensRenderStep(s, last, i);
  }

  /** One match: the head renders up to the end of the token, and the rest by induction. */
  lemma TokensRenderStep(s: string, last: nat, i: nat)
    requires last <= i <= |s| && NextMatch(s, last) == Some(i) && MatchAt(s, i).Some?
    requires Render(Tokens(s, TokenEnd(s, i))) == s[TokenEnd(s, i)..]
    ensures Render(Tokens(s, last)) == s[last..]
  {
    TokensUnfold(s, last, i);
    HeadRender(s, last, i);
    RenderJoin(Tokens(s, last), Head(s, last, i), Tokens(s, TokenEnd(s, i)), s, last, TokenEnd(s, i));
  }

  lemma TokensUnfold(s: string, last: nat, i: nat)
    requires last <= i <= |s| && NextMatch(s, last) == Some(i) && MatchAt(s, i).Some?
    ensures Tokens(s, last) == Head(s, last, i) + Tokens(s, TokenEnd(s, i))
  {
  }

  /** Parts that split into a head rendering `s[lo..mid]` and a rest rendering
      `s[mid..]` render `s[lo..]`. */
  lemma RenderJoin(ps: seq<Part>, head: seq<Part>, rest: seq<Part>, s: string, lo: nat, mid: nat)
    requires lo <= mid <= |s| && ps == head + rest
    requires Render(head) == s[lo..mid] && Render(rest) == s[mid..]
    ensures Render(ps) == s[lo..]
  {
    RenderAppend(head, rest);
    SplitAt(s, lo, mid);
  }

  lemma SplitAt<T>(s: seq<T>, lo: nat, mid: nat)
    requires lo <= mid <= |s|
    ensures s[lo..] == s[lo..mid] + s[mid..]
  {
  }

  lemma RenderSingle(p: Part)
    ensures Render([p]) == RenderPart(p)
  {
    assert [p][1..] == [];
  }

  lemma SplitThree<T>(s: seq<T>, lo: nat, i: nat, j: nat)
    requires lo <= i <= j <= |s|
    ensures s[lo..] == s[lo..i] + s[i..j] + s[j..]
  {
  }

  /** The text of a match is the opening, the name and the closing bracket. */
  lemma TokenText(s: string, i: nat)
    requires i <= |s| && MatchAt(s, i).Some?
    ensures s[i..TokenEnd(s, i)] == Opening + Captured(s, i) + "]"
  {
    var n := MatchAt(s, i).value;
    MatchIs(s, i);
    OpensAtSlice(s, i);
    assert s[i + n - 1..i + n] == "]";
    assert s[i..i + n] == s[i..i + |Opening|] + s[i + |Opening|..i + n - 1] + s[i + n - 1..i + n];
  }

  /** The parts the tokenizer may emit: no empty text, buttons named by the pattern,
      and no complete token left inside a text part. */
  predicate WellFormedPart(p: Part)
  {
    match p
    case TextPart(t) => t != "" && forall i :: 0 <= i <= |t| ==> MatchAt(t, i).None?
    case Button(n) => Shape(n)
  }

  lemma {:induction false} TokensWellFormed(s: string, last: nat)
    requires last <= |s|
    ensures forall p :: p in Tokens(s, last) ==> WellFormedPart(p)
    decreases |s| - last
  {
    NextMatchLeftmost(s, last);
    match NextMatch(s, last)
    case None =>
      if last < |s| {
        NoMatchInSlice(s, last, |s|);
        assert s[last..|s|] == s[last..];
      }
    case Some(i) =>
      TokensWellFormed(s, TokenEnd(s, i));
      TokensWellFormedStep(s, last, i);
  }

  /** One match: the text before it holds no token, the button is named by the pattern,
      and the rest is well formed by induction. */
  lemma TokensWellFormedStep(s: string, last: nat, i: nat)
    requires last <= i <= |s| && NextMatch(s, last) == Some(i) && MatchAt(s, i).Some?
    requires forall j :: last <= j < i ==> MatchAt(s, j).None?
    requires forall p :: p in Tokens(s, TokenEnd(s, i)) ==> WellFormedPart(p)
    ensures forall p :: p in Tokens(s, last) ==> WellFormedPart(p)
  {
    TokensUnfold(s, last, i);
    MatchNameShaped(s, i);
    if i > last {
      NoMatchInSlice(s, last, i);
    }
  }

  /** A slice with no match starting inside it in the whole string has no match of
      its own. */
  lemma NoMatchInSlice(s: string, lo: nat, hi: nat)
    requires lo <= hi <= |s|
    requires forall j :: lo <= j < hi ==> MatchAt(s, j).None?
    ensures forall i :: 0 <= i <= hi - lo ==> MatchAt(s[lo..hi], i).None?
  {
    forall i | 0 <= i <= hi - lo
      ensures MatchAt(s[lo..hi], i).None?
    {
      if MatchAt(s[lo..hi], i).Some? {
        MatchIs(s[lo..hi], i);
        SliceMatch(s, lo, hi, i);
        assert false;
      }
    }
  }

  /** `exec` searching from `last` stops at the first match, or at the end. */
  lemma {:induction false} NextMatchIs(s: string, last: nat, i: nat)
    requires last <= i <= |s|
    requires forall j :: last <= j < i ==> MatchAt(s, j).None?
    requires i == |s| || MatchAt(s, i).Some?
    ensures NextMatch(s, last) == if i == |s| then None else Some(i)
    decreases i - last
  {
    if last < i {
      NextMatchIs(s, last + 1, i);
    }
  }

  /** `parseMessageWithShortcuts`: the `while (exec)` loop over the reply. */
  method ParseShortcuts(content: string) returns (parts: seq<Part>)
    ensures parts == Tokens(content, 0)
    ensures Render(parts) == content
    ensures forall p :: p in parts ==> WellFormedPart(p)
  {
    parts := [];
    var last := 0;
    var searching := true;
    while searching
      invariant last <= |content|
      invariant searching ==> parts + Tokens(content, last) == Tokens(content, 0)
      invariant !searching ==> parts == Tokens(content, 0)
      decreases |content| - last, if searching then 1 else 0
    {
      var i := Exec(content, last);
      ghost var before := parts;
      if i == |content| {
        if last < |content| {
          parts := parts + [TextPart(content[last..])];
        }
        PushedTail(before, parts, content, last);
        searching := false;
      } else {
        if i > last {
          parts := parts + [TextPart(content[last..i])];
        }
        parts := parts + [Button(Captured(content, i))];
        PushedMatch(before, parts, content, last, i);
        last := TokenEnd(content, i);
      }
    }
    TokensRender(content, 0);
    TokensWellFormed(content, 0);
  }

  /** `shortcutRegex.exec(content)` from `lastIndex = from`: the position of the next
      match, or the end of the text when there is none. */
  method Exec(content: string, from: nat) returns (i: nat)
    requires from <= |content|
    ensures from <= i <= |content|
    ensures i == |content| ==> NextMatch(content, from).None?
    ensures i < |content| ==> NextMatch(content, from) == Some(i)
  {
    i := from;
    while i < |content| && MatchAt(content, i).None?
      invariant from <= i <= |content|
      invariant forall j :: from <= j < i ==> MatchAt(content, j).None?
    {
      i := i + 1;
    }
    NextMatchIs(content, from, i);
  }

  /** Past the last match, the parts are the remaining text, if any. */
  lemma TokensEnd(s: string, last: nat)
    requires last <= |s| && NextMatch(s, last).None?
    ensures Tokens(s, last) == if last < |s| then [TextPart(s[last..])] else []
  {
  }

  /** The pushes of one iteration append the head, keeping `parts + Tokens` fixed. */
  lemma PushedHead(before: seq<Part>, after: seq<Part>, s: string, last: nat, i: nat)
    requires last <= i <= |s| && MatchAt(s, i).Some?
    requires after == (if i > last then before + [TextPart(s[last..i])] else before)
      + [Button(Captured(s, i))]
    ensures after == before + Head(s, last, i)
  {
  }

  /** An iteration that finds a match keeps `parts + Tokens(content, lastIndex)` fixed. */
  lemma PushedMatch(before: seq<Part>, after: seq<Part>, s: string, last: nat, i: nat)
    requires last <= i <= |s| && NextMatch(s, last) == Some(i) && MatchAt(s, i).Some?
    requires before + Tokens(s, last) == Tokens(s, 0)
    requires after == (if i > last then before + [TextPart(s[last..i])] else before)
      + [Button(Captured(s, i))]
    ensures after + Tokens(s, TokenEnd(s, i)) == Tokens(s, 0)
  {
    TokensUnfold(s, last, i);
    PushedHead(before, after, s, last, i);
    AppendAssoc(before, Head(s, last, i), Tokens(s, TokenEnd(s, i)));
  }

  /** The iteration that finds no match appends the remaining text, completing the parts. */
  lemma PushedTail(before: seq<Part>, after: seq<Part>, s: string, last: nat)
    requires last <= |s| && NextMatch(s, last).None?
    requires before + Tokens(s, last) == Tokens(s, 0)
    requires after == if last < |s| then before + [TextPart(s[last..])] else before
    ensures after == Tokens(s, 0)
  {
    TokensEnd(s, last);
    if last == |s| {
      AppendNothing(before);
    }
  }

  /** The position of the first hyphen at or after `j`, or the length when there is none. */
  function Hyphen(n: string, j: nat): (r: nat)
    requires j <= |n|
    ensures j <= r <= |n|
    ensures forall m :: j <= m < r ==> n[m] != '-'
    ensures r < |n| ==> n[r] == '-'
    decreases |n| - j
  {
    if j == |n| || n[j] == '-' then j else Hyphen(n, j + 1)
  }

  /** The search stops at the first hyphen: no hyphen before `a`, and one at `a` or the end. */
  lemma {:induction false} HyphenIs(n: string, j: nat, a: nat)
    requires j <= a <= |n| && forall m :: j <= m < a ==> n[m] != '-'
    requires a < |n| ==> n[a] == '-'
    ensures Hyphen(n, j) == a
    decreases a - j
  {
    if j < a {
      HyphenIs(n, j + 1, a);
    }
  }

  /** `shortcutName.replace("-", " ")`: the first hyphen becomes a space. */
  function Label(n: string): (r: string)
    ensures |r| == |n|
    ensures forall j :: 0 <= j < |n| ==> r[j] == if j == Hyphen(n, 0) then ' ' else n[j]
  {
    var h := Hyphen(n, 0);
    if h == |n| then n else n[..h] + " " + n[h + 1..]
  }

  /** A button label of a well-formed name keeps every character but the one hyphen,
      which becomes a space; no hyphen is left. */
  lemma LabelOfShape(n: string)
    requires Shape(n)
    ensures forall j :: 0 <= j < |n| ==> Label(n)[j] == (if n[j] == '-' then ' ' else n[j])
    ensures forall j :: 0 <= j < |n| ==> Label(n)[j] != '-'
  {
    var a := WordRun(n, 0);
    WordRunSpan(n, 0);
    if a < |n| {
      WordRunSpan(n, a + 1);
    }
    assert forall m :: 0 <= m < a ==> n[m] != '-' by {
      forall m | 0 <= m < a
        ensures n[m] != '-'
      {
        assert IsWord(n[m]);
      }
    }
    HyphenIs(n, 0, a);
    forall j | 0 <= j < |n|
      ensures Label(n)[j] == (if n[j] == '-' then ' ' else n[j])
    {
      if j != a {
        assert IsWord(n[j]);
      }
    }
  }

  /** What a shortcut does: go to a page, or go to the services page and open one
      of its dialogs there. */
  datatype Effect = Navigate(path: string) | OpenService(service: string)

  const ServicesPath := "/servicos"

  /** The URL a shortcut leaves the app on. */
  function Destination(e: Effect): string
  {
    match e
    case Navigate(p) => p
    case OpenService(_) => ServicesPath
  }

  /** `handleShortcut`'s `shortcuts` object, key by key. */
  function Actions(): seq<(string, Effect)>
  {
    [ ("dashboard", Navigate("/")), ("extrato", Navigate("/extrato")),
      ("insights", Navigate("/insights")), ("metas", Navigate("/metas")),
      ("ofertas", Navigate("/ofertas")), ("servicos", Navigate("/servicos")),
      ("preferencias", Navigate("/preferencias")), ("pix", OpenService("pix")),
      ("recarga", OpenService("recarga")), ("beneficios", OpenService("beneficios")),
      ("cashback", OpenService("cashback")), ("seguros", OpenService("seguros")),
      ("emprestimos", OpenService("emprestimos")), ("payment-link", OpenService("payment-link")) ]
  }

  /** The button icons; `MessageCircle` is the fallback. */
  datatype Icon = Home | FileText | Lightbulb | Target | Gift | Briefcase | Settings
    | CreditCard | Smartphone | CircleDollarSign | Coins | Shield | PiggyBank | Link2
    | MessageCircle

  /** `parseMessageWithShortcuts`'s `shortcutIcons` object, key by key. */
  function Icons(): seq<(string, Icon)>
  {
    [ ("dashboard", Home), ("extrato", FileText), ("insights", Lightbulb), ("metas", Target),
      ("ofertas", Gift), ("servicos", Briefcase), ("preferencias", Settings),
      ("pix", CreditCard), ("recarga", Smartphone), ("beneficios", CircleDollarSign),
      ("cashback", Coins), ("seguros", Shield), ("emprestimos", PiggyBank),
      ("payment-link", Link2) ]
  }

  /** A lookup of an object literal's own key: the value of the first entry with that
      key, if any. */
  function Find<V>(t: seq<(string, V)>, key: string): (r: Option<V>)
    ensures r.None? <==> forall i :: 0 <= i < |t| ==> t[i].0 != key
    ensures r.Some? ==> (key, r.value) in t
  {
    if t == [] then None
    else if t[0].0 == key then Some(t[0].1)
    else Find(t[1..], key)
  }

  /** The entry at `i` is the one found when no earlier entry has its key. */
  lemma {:induction false} FindAt<V>(t: seq<(string, V)>, i: nat)
    requires i < |t| && forall j :: 0 <= j < i ==> t[j].0 != t[i].0
    ensures Find(t, t[i].0) == Some(t[i].1)
  {
    if i > 0 {
      assert t[1..][i - 1] == t[i];
      FindAt(t[1..], i - 1);
    }
  }

  /** `shortcuts[name]` restricted to own keys, as the table is meant. */
  function Shortcut(name: string): Option<Effect>
  {
    Find(Actions(), name)
  }

  /** `shortcutIcons[name] || <MessageCircle />`, own keys only. */
  function IconOf(name: string): Icon
  {
    match Find(Icons(), name)
    case Some(icon) => icon
    case None => MessageCircle
  }

  /** The two objects are written separately but list the same keys in the same
      order. */
  lemma SameKeys()
    ensures |Actions()| == |Icons()| == 14
    ensures forall i :: 0 <= i < 14 ==> Actions()[i].0 == Icons()[i].0
    ensures forall i :: 0 <= i < 14 ==> Icons()[i].1 != MessageCircle
  {
  }

  lemma {:induction false} FindSameKeys<V, W>(t: seq<(string, V)>, u: seq<(string, W)>, key: string)
    requires |t| == |u| && forall i :: 0 <= i < |t| ==> t[i].0 == u[i].0
    ensures Find(t, key).Some? <==> Find(u, key).Some?
  {
    if t != [] && t[0].0 != key {
      FindSameKeys(t[1..], u[1..], key);
    }
  }

  /** A button gets its own icon exactly when clicking it has an action, so the
      fallback icon marks the names the click ignores. */
  lemma IconIffAction(name: string)
    ensures IconOf(name) != MessageCircle <==> Shortcut(name).Some?
  {
    SameKeys();
    FindSameKeys(Actions(), Icons(), name);
    match Find(Icons(), name)
    case Some(icon) =>
      var i :| 0 <= i < |Icons()| && Icons()[i] == (name, icon);
    case None =>
  }

  /** Every service entry opens the service of its own name. */
  lemma ServicesSelfNamed()
    ensures forall i :: 0 <= i < |Actions()| && Actions()[i].1.OpenService? ==>
      Actions()[i].1.service == Actions()[i].0
  {
  }

  /** Every page entry leads to the page of its own name, the dashboard being the
      root. */
  lemma PagesSelfNamed()
    ensures forall i :: 0 <= i < |Actions()| && Actions()[i].1.Navigate? ==>
      Actions()[i].1.path == (if Actions()[i].0 == "dashboard" then "/" else "/" + Actions()[i].0)
  {
  }

  /** A shortcut that opens a service opens the one it is named after, on the
      services page; one that navigates goes to the page it is named after. */
  lemma ShortcutsLand(name: string)
    requires Shortcut(name).Some?
    ensures Shortcut(name).value.OpenService? ==>
      Shortcut(name).value.service == name && Destination(Shortcut(name).value) == ServicesPath
    ensures Shortcut(name).value.Navigate? ==>
      Destination(Shortcut(name).value) == (if name == "dashboard" then "/" else "/" + name)
  {
    var e := Shortcut(name).value;
    var i :| 0 <= i < |Actions()| && Actions()[i] == (name, e);
    ServicesSelfNamed();
    PagesSelfNamed();
  }

  /** `Object.prototype`'s property names: a bracket lookup on an object literal finds
      these too. */
  function Inherited(): seq<string>
  {
    [ "constructor", "hasOwnProperty", "isPrototypeOf", "propertyIsEnumerable", "toLocaleString",
      "toString", "valueOf", "__defineGetter__", "__defineSetter__", "__lookupGetter__",
      "__lookupSetter__", "__proto__" ]
  }

  datatype Lookup<V> = Own(value: V) | Builtin(name: string) | Missing

  /** `shortcuts[shortcut]` and `shortcutIcons[shortcutName]` as written: the bracket
      lookup also returns an inherited built-in, which is truthy. */
  function LookupAsWritten<V>(t: seq<(string, V)>, name: string): (r: Lookup<V>)
    ensures r.Own? <==> Find(t, name).Some?
    ensures r.Missing? <==> Find(t, name).None? && name !in Inherited()
  {
    match Find(t, name)
    case Some(v) => Own(v)
    case None => if name in Inherited() then Builtin(name) else Missing
  }

  /** A reply containing `[ATALHO:constructor]` yields one button whose name the
      pattern accepts and which has no entry of its own, yet both lookups as written
      find something: the click passes `if (action)` and shows "Navegando..." without
      navigating (calling the built-in `Object` function changes nothing), and the
      button shows no icon instead of the fallback. */
  lemma InheritedNameEntersAction()
    ensures Tokens("[ATALHO:constructor]", 0) == [Button("constructor")]
    ensures Shortcut("constructor").None? && IconOf("constructor") == MessageCircle
    ensures LookupAsWritten(Actions(), "constructor").Builtin?
    ensures LookupAsWritten(Icons(), "constructor").Builtin?
  {
    var s := "[ATALHO:constructor]";
    ConstructorMatches();
    NextMatchIs(s, 0, 0);
    TokensUnfold(s, 0, 0);
    assert Head(s, 0, 0) == [Button("constructor")];
    NextMatchIs(s, 20, 20);
    assert Tokens(s, 20) == [];
    assert Head(s, 0, 0) + Tokens(s, 20) == [Button("constructor")];
    ConstructorUnlisted();
  }

  /** `[ATALHO:constructor]` is a match of the whole text. */
  lemma ConstructorMatches()
    ensures MatchAt("[ATALHO:constructor]", 0) == Some(20)
    ensures TokenEnd("[ATALHO:constructor]", 0) == 20
    ensures Captured("[ATALHO:constructor]", 0) == "constructor"
  {
    var s := "[ATALHO:constructor]";
    assert |s| == 20 && OpensAt(s, 0);
    assert forall m :: 8 <= m < 19 ==> IsWord(s[m]);
    assert !IsWord(s[19]) && s[19] == ']';
    WordRunOfWords(s, 8, 19);
    assert NameEnd(s, 8) == 19;
    assert Captured(s, 0) == s[8..19] == "constructor";
  }

  lemma ConstructorUnlisted()
    ensures forall i :: 0 <= i < |Actions()| ==> Actions()[i].0 != "constructor"
    ensures forall i :: 0 <= i < |Icons()| ==> Icons()[i].0 != "constructor"
    ensures "constructor" in Inherited()
  {
    SameKeys();
  }

  /** A run of word characters up to a non-word character or the end is the run
      `WordRun` measures. */
  lemma {:induction false} WordRunOfWords(s: string, j: nat, k: nat)
    requires j <= k <= |s| && forall m :: j <= m < k ==> IsWord(s[m])
    requires k < |s| ==> !IsWord(s[k])
    ensures WordRun(s, j) == k - j
    decreases k - j
  {
    if j < k {
      WordRunOfWords(s, j + 1, k);
    }
  }

  /** The one hyphenated name: the pattern accepts it, its button reads
      "payment link", and it opens its service. */
  lemma PaymentLinkShortcut()
    ensures Shape("payment-link")
    ensures Label("payment-link") == "payment link"
    ensures Shortcut("payment-link") == Some(OpenService("payment-link"))
  {
    PaymentLinkShape();
    PaymentLinkLabel();
    PaymentLinkLast();
    FindAt(Actions(), 13);
  }

  lemma PaymentLinkShape()
    ensures Shape("payment-link")
  {
    var n := "payment-link";
    WordRunOfWords(n, 0, 7);
    WordRunOfWords(n, 8, 12);
  }

  lemma PaymentLinkLabel()
    ensures Label("payment-link") == "payment link"
  {
    var n := "payment-link";
    assert n[7] == '-' && forall m :: 0 <= m < 7 ==> n[m] != '-';
    HyphenIs(n, 0, 7);
    assert n[..7] + " " + n[8..] == "payment link";
  }

  lemma PaymentLinkLast()
    ensures |Actions()| == 14 && Actions()[13] == ("payment-link", OpenService("payment-link"))
    ensures forall j :: 0 <= j < 13 ==> Actions()[j].0 != Actions()[13].0
  {
  }

  datatype Role = UserRole | AssistantRole

  /** A message of the history. The greeting the window starts from is its own
      constructor, so that its text is only unfolded where it is read. */
  datatype Message = Welcome | Message(role: Role, content: string)

  function Speaker(m: Message): Role
  {
    if m.Welcome? then AssistantRole else m.role
  }

  function Text(m: Message): string
  {
    if m.Welcome? then "Olá! 👋 Sou o assistente do Équilibra. Como posso ajudar você hoje? Posso te dar atalhos, explicar funcionalidades ou responder suas dúvidas sobre o app!" else m.content
  }

  const SendFailed := "Erro ao enviar mensagem. Tente novamente."

  /** `!input.trim()`: nothing but white space. */
  predicate BlankText(s: string)
  {
    forall i :: 0 <= i < |s| ==> IsSpace(s[i])
  }

  class ChatSession {
    var open: bool
    var messages: seq<Message>
    var input: string
    var loading: bool
    var notice: string

    constructor ()
      ensures !open && messages == [Welcome] && input == "" && !loading && notice == ""
    {
      open, messages, input, loading, notice := false, [Welcome], "", false, "";
    }

    method Open()
      modifies this
      ensures open && messages == old(messages) && input == old(input) && loading == old(loading)
      ensures notice == old(notice)
    {
      open := true;
    }

    /** `handleClose`: the window closes and the history goes back to the greeting. */
    method Close()
      modifies this
      ensures !open && messages == [Welcome]
      ensures input == old(input) && loading == old(loading) && notice == old(notice)
    {
      open := false;
      messages := [Welcome];
    }

    /** `sendMessage`, with the request's outcome as `reply` (None when it fails). */
    method Send(reply: Option<string>)
      modifies this
      ensures old(BlankText(input) || loading) ==>
        messages == old(messages) && input == old(input) && loading == old(loading) && notice == old(notice)
      ensures !old(BlankText(input) || loading) ==>
        && messages == old(messages) + [Message(UserRole, old(input))]
             + (if reply.Some? then [Message(AssistantRole, reply.value)] else [])
        && input == "" && !loading
        && notice == (if reply.None? then SendFailed else old(notice))
      ensures open == old(open)
    {
      if BlankText(input) || loading {
        return;
      }
      messages := messages + [Message(UserRole, input)];
      input := "";
      if reply.Some? {
        messages := messages + [Message(AssistantRole, reply.value)];
      } else {
        notice := SendFailed;
      }
    }
  }
}
