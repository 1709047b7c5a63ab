/** The AI-doctor chat (components/AgentChat.tsx): the light markup of the
    replies (lines, bullets and `**bold**` spans), the "role: text"
    transcript handed to the model, and the send/reply cycle of the chat. */
module AgentChat {
  import opened Wrappers
  import opened Types
  import Text
  import Seqs

  /** A run of reply text: plain, or inside a `<strong>`. */
  datatype Inline = Plain(text: string) | Bold(text: string)

  /** One rendered line of a reply: a list item or a paragraph. */
  datatype Block = Item(content: seq<Inline>) | Para(content: seq<Inline>)

  /** The characters the regular-expression `.` does not match. */
  predicate IsLineTerminator(c: char) {
    c == '\n' || c == '\r' || c == '\U{2028}' || c == '\U{2029}'
  }

  /** "**" starts at position `i` of `s`. */
  predicate MarkerAt(s: string, i: int) {
    0 <= i && i + 2 <= |s| && s[i] == '*' && s[i + 1] == '*'
  }

  /** `.*?\*\*` can match from `j` with its "**" at `k`: a marker at `k` and no
      line terminator in between. */
  ghost predicate ClosesAt(s: string, j: int, k: int) {
    0 <= j <= k && MarkerAt(s, k) && forall m :: j <= m < k ==> !IsLineTerminator(s[m])
  }

  /** The pattern `\*\*.*?\*\*` matches from `a` with its closing "**" at
      `k`. */
  ghost predicate SpanAt(s: string, a: int, k: int) {
    MarkerAt(s, a) && ClosesAt(s, a + 2, k)
  }

  /** The pattern `\*\*.*?\*\*` matches at position `a` of `s`. */
  ghost predicate Opens(s: string, a: int) {
    exists k :: SpanAt(s, a, k)
  }

  /** Where the lazy `.*?\*\*` started at `j` stops: the first marker at or
      after `j`, provided no line terminator comes first. */
  function CloseFrom(s: string, j: nat): (r: Option<nat>)
    requires j <= |s|
    ensures r.Some? ==> ClosesAt(s, j, r.value) && forall m :: j <= m < r.value ==> !MarkerAt(s, m)
    ensures r.None? <==> !exists k :: ClosesAt(s, j, k)
    decreases |s| - j
  {
    if j + 2 > |s| then None
    else if MarkerAt(s, j) then Some(j)
    else if IsLineTerminator(s[j]) then
      assert forall k :: ClosesAt(s, j, k) ==> k == j by {
        forall k | ClosesAt(s, j, k) ensures k == j {
        }
      }
      None
    else
      var r := CloseFrom(s, j + 1);
      assert forall k :: ClosesAt(s, j, k) ==> ClosesAt(s, j + 1, k) by {
        forall k | ClosesAt(s, j, k) ensures ClosesAt(s, j + 1, k) {
        }
      }
      r
  }

  /** The leftmost match of `(\*\*.*?\*\*)` at or after `i`, as the start and
      the end of the matched text. */
  function FindBold(s: string, i: nat): (r: Option<(nat, nat)>)
    requires i <= |s|
    ensures r.Some? ==> i <= r.value.0 && r.value.0 + 4 <= r.value.1 <= |s|
    ensures r.Some? ==> MarkerAt(s, r.value.0) && CloseFrom(s, r.value.0 + 2) == Some(r.value.1 - 2)
    ensures r.Some? ==> forall a :: i <= a < r.value.0 ==> !Opens(s, a)
    ensures r.None? ==> forall a :: i <= a ==> !Opens(s, a)
    decreases |s| - i
  {
    if i + 2 > |s| then None
    else if MarkerAt(s, i) && CloseFrom(s, i + 2).Some? then Some((i, CloseFrom(s, i + 2).value + 2))
    else
      NoOpenAt(s, i);
      FindBold(s, i + 1)
  }

  lemma NoOpenAt(s: string, i: nat)
    requires i + 2 <= |s| && !(MarkerAt(s, i) && CloseFrom(s, i + 2).Some?)
    ensures !Opens(s, i)
  {
  }

  /** The text of a bold span: "**", at least no characters, "**", with no
      line terminator and no earlier "**" inside. */
  predicate IsBoldSpan(p: string) {
    |p| >= 4 && Text.StartsWith(p, "**") && Text.EndsWith(p, "**")
    && forall m :: 2 <= m < |p| - 2 ==> !IsLineTerminator(p[m]) && !MarkerAt(p, m)
  }

  /** The pieces glued back together. */
  function Concat(parts: seq<string>): string
    decreases |parts|
  {
    if |parts| == 0 then "" else parts[0] + Concat(parts[1..])
  }

  /** `s.slice(from).split(/(\*\*.*?\*\*)/)`: the text between matches and,
      because the group captures, the matches themselves, alternately. */
  function SplitBold(s: string, from: nat): (parts: seq<string>)
    requires from <= |s|
    ensures WellSplit(parts)
    ensures Concat(parts) == s[from..]
    decreases |s| - from
  {
    match FindBold(s, from)
    case None =>
      LastPieceIsPlain(s, from);
      assert Concat([s[from..]]) == s[from..] + Concat([]);
      [s[from..]]
    case Some((a, b)) =>
      var rest := SplitBold(s, b);
      SplitAtMatch(s, from, a, b, rest);
      [s[from..a], s[a..b]] + rest
  }

  /** Pieces alternate: plain text in which the pattern does not match, then
      a bold span, ending with plain text. */
  ghost predicate WellSplit(parts: seq<string>) {
    && |parts| % 2 == 1
    && (forall k :: 0 <= k < |parts| && k % 2 == 1 ==> IsBoldSpan(parts[k]))
    && (forall k, m :: 0 <= k < |parts| && k % 2 == 0 ==> !Opens(parts[k], m))
  }

  lemma SplitAtMatch(s: string, from: nat, a: nat, b: nat, rest: seq<string>)
    requires from <= |s| && FindBold(s, from) == Some((a, b))
    requires WellSplit(rest) && Concat(rest) == s[b..]
    ensures WellSplit([s[from..a], s[a..b]] + rest)
    ensures Concat([s[from..a], s[a..b]] + rest) == s[from..]
  {
    BoldSpanOfMatch(s, a, b);
    PieceBeforeMatchIsPlain(s, from, a);
    SplitBoldStep(s[from..a], s[a..b], rest);
    ConcatStep(s, from, a, b, rest);
  }

  lemma ConcatStep(s: string, from: nat, a: nat, b: nat, rest: seq<string>)
    requires from <= a <= b <= |s| && Concat(rest) == s[b..]
    ensures Concat([s[from..a], s[a..b]] + rest) == s[from..]
  {
    var parts := [s[from..a], s[a..b]] + rest;
    assert parts[1..] == [s[a..b]] + rest && parts[1..][1..] == rest;
    assert s[from..] == s[from..a] + (s[a..b] + s[b..]);
  }

  lemma SplitBoldStep(plain: string, span: string, rest: seq<string>)
    requires (forall m :: !Opens(plain, m)) && IsBoldSpan(span) && WellSplit(rest)
    ensures WellSplit([plain, span] + rest)
  {
    var parts := [plain, span] + rest;
    forall k | 0 <= k < |parts| && k % 2 == 1 ensures IsBoldSpan(parts[k]) {
      if k > 1 {
        assert parts[k] == rest[k - 2];
      }
    }
    forall k, m | 0 <= k < |parts| && k % 2 == 0 ensures !Opens(parts[k], m) {
      if k > 0 {
        assert parts[k] == rest[k - 2];
      }
    }
  }

  lemma LastPieceIsPlain(s: string, from: nat)
    requires from <= |s| && FindBold(s, from).None?
    ensures forall m :: !Opens(s[from..], m)
  {
    forall m | Opens(s[from..], m) ensures false {
      assert s[from..|s|] == s[from..];
      OpensInPiece(s, from, |s|, m);
    }
  }

  lemma PieceBeforeMatchIsPlain(s: string, from: nat, a: nat)
    requires from <= a <= |s| && forall a' :: from <= a' < a ==> !Opens(s, a')
    ensures forall m :: !Opens(s[from..a], m)
  {
    forall m | Opens(s[from..a], m) ensures false {
      OpensInPiece(s, from, a, m);
    }
  }

  /** A match inside a piece of `s` is a match in `s` itself. */
  lemma OpensInPiece(s: string, lo: nat, hi: nat, m: int)
    requires lo <= hi <= |s| && Opens(s[lo..hi], m)
    ensures Opens(s, lo + m)
  {
    var p := s[lo..hi];
    var k :| SpanAt(p, m, k);
    assert SpanAt(s, lo + m, lo + k) by {
      forall i | lo + m + 2 <= i < lo + k ensures !IsLineTerminator(s[i]) {
        assert s[i] == p[i - lo];
      }
    }
  }

  /** What FindBold reports is a bold span. */
  lemma BoldSpanOfMatch(s: string, a: nat, b: nat)
    requires a + 4 <= b <= |s| && MarkerAt(s, a) && CloseFrom(s, a + 2) == Some(b - 2)
    ensures IsBoldSpan(s[a..b])
  {
    var p := s[a..b];
    forall m | 2 <= m < |p| - 2 ensures !IsLineTerminator(p[m]) && !MarkerAt(p, m) {
      assert p[m] == s[a + m] && !MarkerAt(s, a + m);
    }
    assert p[..2] == "**" && p[|p| - 2..] == "**";
  }

  /** How a split piece renders: a piece that starts and ends with "**" is
      bold with two characters cut from each end (`slice(2, -2)`, empty when
      the piece is shorter than four); anything else is plain. */
  function Style(p: string): (r: Inline)
    ensures r.Bold? <==> Text.StartsWith(p, "**") && Text.EndsWith(p, "**")
    ensures r.Plain? ==> r.text == p
    ensures r.Bold? ==> |r.text| == if |p| < 4 then 0 else |p| - 4
    ensures r.Bold? ==> "**" + r.text + "**" == p || |p| < 4
  {
    if Text.StartsWith(p, "**") && Text.EndsWith(p, "**") then
      var inner := if |p| >= 4 then p[2..|p| - 2] else "";
      assert |p| >= 4 ==> "**" + inner + "**" == p by {
        if |p| >= 4 {
          assert p == p[..2] + p[2..|p| - 2] + p[|p| - 2..];
        }
      }
      Bold(inner)
    else Plain(p)
  }

  /** `parseInlineStyles(text)` */
  function ParseInlineStyles(text: string): (r: seq<Inline>)
    ensures |r| % 2 == 1
  {
    var parts := SplitBold(text, 0);
    seq(|parts|, i requires 0 <= i < |parts| => Style(parts[i]))
  }

  /** Every span the pattern matches becomes bold with its markers removed, and
      no bold span is left inside the plain text between them; the pieces,
      before styling, give the text back. */
  lemma {:induction false} InlineStylesSplit(text: string)
    ensures var parts := SplitBold(text, 0);
      && Concat(parts) == text
      && |ParseInlineStyles(text)| == |parts|
      && (forall k :: 0 <= k < |parts| && k % 2 == 1 ==>
            ParseInlineStyles(text)[k] == Bold(parts[k][2..|parts[k]| - 2])
            && "**" + parts[k][2..|parts[k]| - 2] + "**" == parts[k])
      && (forall k, m :: 0 <= k < |parts| && k % 2 == 0 ==> !Opens(parts[k], m))
  {
    var parts := SplitBold(text, 0);
    assert text[0..] == text;
    forall k | 0 <= k < |parts| && k % 2 == 1
      ensures ParseInlineStyles(text)[k] == Bold(parts[k][2..|parts[k]| - 2])
      ensures "**" + parts[k][2..|parts[k]| - 2] + "**" == parts[k]
    {
      assert IsBoldSpan(parts[k]);
      assert Style(parts[k]).Bold?;
    }
  }

  /** A lone "**" is no match and yet starts and ends with "**": it renders
      as an empty bold run, so the two stars vanish. */
  lemma LoneMarkersVanish()
    ensures ParseInlineStyles("**") == [Bold("")]
  {
    assert FindBold("**", 0) == None;
  }

  /** The trimmed line opens with "* " or "- ". */
  predicate IsBullet(line: string) {
    Text.StartsWith(Text.Trim(line), "* ") || Text.StartsWith(Text.Trim(line), "- ")
  }

  /** `line.replace(/^[*-]\s/, '')`: the marker and one white-space character
      are removed only at the very start of the line. */
  function StripMarker(line: string): (r: string)
    ensures r == line || (|line| >= 2 && r == line[2..])
    ensures r != line <==>
      |line| >= 2 && (line[0] == '*' || line[0] == '-') && Text.IsWhitespace(line[1])
  {
    if |line| >= 2 && (line[0] == '*' || line[0] == '-') && Text.IsWhitespace(line[1]) then
      assert |line[2..]| < |line|;
      line[2..]
    else line
  }

  /** One line of `formatText`. */
  function FormatLine(line: string): (b: Block)
    ensures b.Item? <==> IsBullet(line)
    ensures b.Item? ==> b.content == ParseInlineStyles(StripMarker(line))
    ensures b.Para? ==> b.content == ParseInlineStyles(line)
  {
    if IsBullet(line) then Item(ParseInlineStyles(StripMarker(line)))
    else Para(ParseInlineStyles(line))
  }

  /** `formatText(text)`: one block per '\n'-separated line, in order. */
  function FormatText(text: string): (r: seq<Block>)
    ensures |r| == |Text.Split(text, '\n')|
    ensures forall i :: 0 <= i < |r| ==> r[i] == FormatLine(Text.Split(text, '\n')[i])
  {
    var lines := Text.Split(text, '\n');
    seq(|lines|, i requires 0 <= i < |lines| => FormatLine(lines[i]))
  }

  /** The lines `formatText` renders are the text's lines: joined back with
      '\n' they give the text, and a text made of lines without '\n' yields
      exactly one block for each of them. */
  lemma FormatTextLines(lines: seq<string>)
    requires |lines| >= 1 && forall i :: 0 <= i < |lines| ==> '\n' !in lines[i]
    ensures |FormatText(Text.Join(lines, "\n"))| == |lines|
    ensures forall i :: 0 <= i < |lines| ==> FormatText(Text.Join(lines, "\n"))[i] == FormatLine(lines[i])
  {
    Text.SplitJoin(lines, '\n');
  }

  /** A bullet at column zero loses its marker. */
  lemma BulletAtColumnZero(mark: char, rest: string, i: nat)
    requires mark == '*' || mark == '-'
    requires i < |rest| && !Text.IsWhitespace(rest[i])
    ensures FormatLine([mark, ' '] + rest) == Item(ParseInlineStyles(rest))
  {
    var line := [mark, ' '] + rest;
    assert line[2 + i] == rest[i];
    Text.TrimKeepsLeadingNonWhitespace(line);
    var tr := Text.Trim(line);
    assert |tr| > 2 + i;
    assert tr[..2] == line[..2] == [mark, ' '];
    assert line[2..] == rest;
  }

  /** An indented bullet is still a list item, but its marker stays in the
      text. */
  lemma IndentedBulletKeepsMarker(line: string)
    requires |line| > 0 && Text.IsWhitespace(line[0]) && IsBullet(line)
    ensures FormatLine(line) == Item(ParseInlineStyles(line))
  {
  }

  /** A bullet with nothing after it is trimmed to a lone marker and renders as
      a paragraph. */
  lemma BareMarkerIsParagraph()
    ensures FormatLine("* ") == Para(ParseInlineStyles("* "))
  {
    assert Text.TrimEnd("* ") == "*";
  }

  /** One transcript line: `${m.role}: ${m.text}`. */
  function TranscriptLine(m: ChatMessage): string {
    m.role.Name() + ": " + m.text
  }

  /** The messages as "role: text" lines joined with '\n'. */
  function Transcript(msgs: seq<ChatMessage>): string {
    Text.Join(seq(|msgs|, i requires 0 <= i < |msgs| => TranscriptLine(msgs[i])), "\n")
  }

  /** A transcript of messages without line breaks splits back into one
      "role: text" line per message, in order. */
  lemma TranscriptLines(msgs: seq<ChatMessage>)
    requires |msgs| >= 1 && forall i :: 0 <= i < |msgs| ==> '\n' !in msgs[i].text
    ensures Text.Split(Transcript(msgs), '\n')
         == seq(|msgs|, i requires 0 <= i < |msgs| => TranscriptLine(msgs[i]))
  {
    var lines := seq(|msgs|, i requires 0 <= i < |msgs| => TranscriptLine(msgs[i]));
    forall i | 0 <= i < |lines| ensures '\n' !in lines[i] {
      var r := msgs[i].role.Name();
      assert '\n' !in r;
      assert lines[i] == r + ": " + msgs[i].text;
    }
    Text.SplitJoin(lines, '\n');
  }

  /** The input is empty or white space only. */
  predicate Blank(s: string) {
    forall i :: 0 <= i < |s| ==> Text.IsWhitespace(s[i])
  }

  /** Blank text is exactly the text that `trim()` empties, the test
      `!input.trim()` makes. */
  lemma BlankIsTrimmedEmpty(s: string)
    ensures Blank(s) <==> Text.Trim(s) == ""
  {
    var t := Text.TrimStart(s);
    if Text.Trim(s) == "" {
      assert |t| == 0;
    }
  }

  /** A source link returned with a reply. */
  datatype Source = Source(title: string, uri: string)

  /** What `handleSend` hands to the model: the question and the recent
      history. */
  datatype Request = Request(question: string, history: string)

  /** The welcome message, in the parent's language. */
  function Welcome(profile: InfantProfile, now: int): (m: ChatMessage)
    ensures m.id == "welcome" && m.role == Model && m.timestamp == now
    ensures Text.Contains(m.text, profile.parentName) && Text.Contains(m.text, profile.name)
  {
    var text :=
      if profile.language == Te then
        ContainsBoth("\U{0C28}\U{0C2E}\U{0C38}\U{0C4D}\U{0C15}\U{0C3E}\U{0C30}\U{0C02} ", profile.parentName, ". \U{0C28}\U{0C47}\U{0C28}\U{0C41} \U{0C21}\U{0C3E}\U{0C15}\U{0C4D}\U{0C1F}\U{0C30}\U{0C4D} NurtureAI. ", profile.name, " \U{0C06}\U{0C30}\U{0C4B}\U{0C17}\U{0C4D}\U{0C2F}\U{0C02} \U{0C17}\U{0C41}\U{0C30}\U{0C3F}\U{0C02}\U{0C1A}\U{0C3F} \U{0C0F}\U{0C35}\U{0C48}\U{0C28}\U{0C3E} \U{0C38}\U{0C02}\U{0C26}\U{0C47}\U{0C39}\U{0C3E}\U{0C32}\U{0C41} \U{0C09}\U{0C28}\U{0C4D}\U{0C28}\U{0C3E}\U{0C2F}\U{0C3E}?")
      else
        ContainsBoth("Hello ", profile.parentName, ". I am Dr. NurtureAI. Do you have any concerns about ",
                     profile.name, "'s health?");
    ChatMessage("welcome", Model, text, now)
  }

  /** The template `p${a}q${b}r`, which holds both of its arguments. */
  function ContainsBoth(p: string, a: string, q: string, b: string, r: string): (t: string)
    ensures Text.Contains(t, a) && Text.Contains(t, b)
  {
    var t := p + a + q + b + r;
    assert t[|p|..|p| + |a|] == a;
    Text.ContainsAt(t, a, |p|);
    assert t[|p + a + q|..|p + a + q| + |b|] == b;
    Text.ContainsAt(t, b, |p + a + q|);
    t
  }

  /** The status line while a reply is awaited. */
  function ResearchNote(lang: Language): string {
    if lang == Te then "\U{0C17}\U{0C23}\U{0C3E}\U{0C02}\U{0C15}\U{0C3E}\U{0C32}\U{0C41} \U{0C2E}\U{0C30}\U{0C3F}\U{0C2F}\U{0C41} \U{0C35}\U{0C48}\U{0C26}\U{0C4D}\U{0C2F} \U{0C2A}\U{0C24}\U{0C4D}\U{0C30}\U{0C3E}\U{0C32}\U{0C28}\U{0C41} \U{0C2A}\U{0C30}\U{0C3F}\U{0C36}\U{0C40}\U{0C32}\U{0C3F}\U{0C38}\U{0C4D}\U{0C24}\U{0C41}\U{0C28}\U{0C4D}\U{0C28}\U{0C3E}\U{0C28}\U{0C41}..." else "Consulting global documents & research..."
  }

  /** The text of the message that replaces a failed reply. */
  function ErrorText(lang: Language): string {
    if lang == Te then "\U{0C15}\U{0C4D}\U{0C37}\U{0C2E}\U{0C3F}\U{0C02}\U{0C1A}\U{0C3E}\U{0C32}\U{0C3F}, \U{0C38}\U{0C3E}\U{0C02}\U{0C15}\U{0C47}\U{0C24}\U{0C3F}\U{0C15} \U{0C38}\U{0C2E}\U{0C38}\U{0C4D}\U{0C2F}." else "System temporary unavailable."
  }

  /** The chat's state: the messages shown, the input box, the loading flag,
      the status line and the sources of each reply. */
  class ChatSession {
    const profile: InfantProfile
    var messages: seq<ChatMessage>
    var input: string
    var isLoading: bool
    var researchState: string
    var sourcesMap: map<string, seq<Source>>

    /** A fresh chat opens with the welcome message. */
    constructor (profile: InfantProfile, now: int)
      ensures this.profile == profile
      ensures messages == [Welcome(profile, now)]
      ensures input == "" && !isLoading && researchState == "" && sourcesMap == map[]
    {
      this.profile := profile;
      messages := [Welcome(profile, now)];
      input := "";
      isLoading := false;
      researchState := "";
      sourcesMap := map[];
    }

    method SetInput(text: string)
      modifies this
      ensures input == text
      ensures messages == old(messages) && isLoading == old(isLoading)
      ensures researchState == old(researchState) && sourcesMap == old(sourcesMap)
    {
      input := text;
    }

    /** The first half of `handleSend`, up to the model call: a blank input or
        a send while a reply is awaited does nothing; otherwise the question
        is appended as a user message stamped `now`, the input is cleared,
        loading starts, and the request carries the question and the four
        newest messages from before it. */
    method Send(now: int) returns (request: Option<Request>)
      modifies this
      ensures (Blank(old(input)) || old(isLoading)) <==> request.None?
      ensures request.None? ==>
        messages == old(messages) && input == old(input) && isLoading == old(isLoading)
        && researchState == old(researchState)
      ensures request.Some? ==>
        && request.value == Request(old(input), Transcript(Seqs.TakeLast(old(messages), 4)))
        && messages == old(messages) + [ChatMessage(Text.IntToString(now), User, old(input), now)]
        && input == "" && isLoading
      ensures request.Some? ==> researchState == ResearchNote(profile.language)
      ensures sourcesMap == old(sourcesMap)
    {
      if Blank(input) || isLoading {
        return None;
      }
      var userMsg := ChatMessage(Text.IntToString(now), User, input, now);
      var history := Transcript(Seqs.TakeLast(messages, 4));
      messages := messages + [userMsg];
      input := "";
      isLoading := true;
      researchState := ResearchNote(profile.language);
      request := Some(Request(userMsg.text, history));
    }

    /** The second half of `handleSend`: a reply is appended as a model
        message (its sources recorded under its id when there are any), a
        failure appends the error message with id "err"; either way loading
        ends and the status line clears. */
    method Receive(reply: Option<(string, seq<Source>)>, now: int)
      requires isLoading
      modifies this
      ensures reply.Some? ==>
        && messages == old(messages) + [ChatMessage(Text.IntToString(now + 1), Model, reply.value.0, now)]
        && sourcesMap == if |reply.value.1| > 0 then old(sourcesMap)[Text.IntToString(now + 1) := reply.value.1]
                         else old(sourcesMap)
      ensures reply.None? ==>
        messages == old(messages) + [ChatMessage("err", Model, ErrorText(profile.language), now)]
        && sourcesMap == old(sourcesMap)
      ensures !isLoading && researchState == "" && input == old(input)
    {
      match reply {
        case Some((text, sources)) =>
          var aiMsg := ChatMessage(Text.IntToString(now + 1), Model, text, now);
          messages := messages + [aiMsg];
          if |sources| > 0 {
            sourcesMap := sourcesMap[aiMsg.id := sources];
          }
        case None =>
          messages := messages + [ChatMessage("err", Model, ErrorText(profile.language), now)];
      }
      isLoading := false;
      researchState := "";
    }
  }

  /** The history `Send` builds (the newest messages of `old(messages)`, at
      most four) is, in the message list after the send, exactly the stretch
      that ends just before the appended question: the question's own
      position is never part of it, however long the chat is. */
  lemma {:induction false} HistoryPrecedesQuestion(before: seq<ChatMessage>, question: ChatMessage)
    ensures var window := Seqs.TakeLast(before, 4);
      var after := before + [question];
      && |window| == (if |before| < 4 then |before| else 4)
      && after[|after| - 1] == question
      && window == after[|after| - 1 - |window|..|after| - 1]
  {
    var window := Seqs.TakeLast(before, 4);
    var after := before + [question];
    assert after[..|after| - 1] == before;
    assert window == before[|before| - |window|..];
  }
}
