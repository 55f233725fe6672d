/** Case notes (recon_cockpit/case.py): whatever text a scanner puts in a cell, rendering keeps the analyst's
    manual section and nothing else is ever taken for it. */
module CaseNotes {
  import opened Prelude

  const MANUAL_START := "<!-- recon-cockpit:manual:start -->"
  const MANUAL_END := "<!-- recon-cockpit:manual:end -->"
  const HEADING := "## Manual notes"
  const EMPTY_SECTION := "\n\n"

  // ------------------------------------------------------------ finding the section

  /** The text after any spaces and tabs. */
  function SkipBlanks(s: string): string {
    if s != "" && (s[0] == ' ' || s[0] == '\t') then SkipBlanks(s[1..]) else s
  }

  /** The text after a line break, with or without a carriage return. */
  function AfterBreak(s: string): Option<string> {
    if s != "" && s[0] == '\n' then Some(s[1..])
    else if |s| >= 2 && s[0] == '\r' && s[1] == '\n' then Some(s[2..])
    else None
  }

  function AfterPrefix(s: string, prefix: string): Option<string> {
    if prefix <= s then Some(s[|prefix|..]) else None
  }

  /** The start of the managed section, matched at the beginning of s: its heading, a blank line and the marker. */
  function SectionHere(s: string): Option<string> {
    match AfterPrefix(s, HEADING)
    case None => None
    case Some(a) =>
      match AfterBreak(SkipBlanks(a))
      case None => None
      case Some(b) =>
        match AfterBreak(b)
        case None => None
        case Some(c) => AfterPrefix(c, MANUAL_START)
  }

  /** The first such start at the beginning of a line: the text after it. */
  function FindSection(s: string, lineStart: bool): Option<string> {
    if lineStart && SectionHere(s).Some? then SectionHere(s)
    else if s == "" then None
    else FindSection(s[1..], s[0] == '\n')
  }

  /** Blanks and at most one line break up to the end of the document. */
  predicate OnlyBreak(s: string) {
    var rest := SkipBlanks(s);
    rest == "" || rest == "\n" || rest == "\r\n"
  }

  /** The end marker, as the last thing of the document. */
  predicate EndHere(s: string) {
    MANUAL_END <= s && OnlyBreak(s[|MANUAL_END|..])
  }

  /** The text before the first such end. */
  function BeforeEnd(s: string): Option<string> {
    if EndHere(s) then Some("")
    else if s == "" then None
    else match BeforeEnd(s[1..])
      case None => None
      case Some(t) => Some([s[0]] + t)
  }

  /** _manual_content() */
  function ManualContent(notes: string): string {
    match FindSection(notes, true)
    case None => EMPTY_SECTION
    case Some(rest) =>
      match BeforeEnd(rest)
      case None => EMPTY_SECTION
      case Some(manual) => manual
  }

  // ------------------------------------------------------------------- rendering

  /** Leftmost, non-overlapping replacement. */
  function Replace(s: string, old': string, new': string): string
    requires old' != ""
    decreases |s|
  {
    if old' <= s then new' + Replace(s[|old'|..], old', new')
    else if s == "" then ""
    else [s[0]] + Replace(s[1..], old', new')
  }

  function DropControls(s: string): string {
    if s == "" then ""
    else (if Unsafe(s[0]) then "" else [s[0]]) + DropControls(s[1..])
  }

  predicate Unsafe(c: char) {
    c <= '\U{08}' || '\U{0B}' <= c <= '\U{1F}' || '\U{7F}' <= c <= '\U{9F}'
  }

  const NEUTRAL_START := "&lt;!-- recon-cockpit:manual:start --&gt;"
  const NEUTRAL_END := "&lt;!-- recon-cockpit:manual:end --&gt;"

  /** _markdown_cell() of a value as it is displayed, secrets redacted and terminal sequences removed. */
  function Cell(display: string -> string, value: string): string {
    var a := Replace(DropControls(display(value)), MANUAL_START, NEUTRAL_START);
    var b := Replace(a, MANUAL_END, NEUTRAL_END);
    var c := Replace(Replace(b, "\\", "\\\\"), "|", "\\|");
    Replace(Replace(Replace(c, "\r\n", "<br>"), "\n", "<br>"), "\r", "<br>")
  }

  /** A table row: the displayed value of each column. */
  type Row = seq<string>

  function JoinCells(cells: seq<string>): string {
    if cells == [] then ""
    else if |cells| == 1 then cells[0]
    else JoinCells(cells[..|cells| - 1]) + " | " + cells[|cells| - 1]
  }

  /** _table(), as lines; column `secret` is shown unredacted. */
  function TableLines(headers: seq<string>, rows: seq<Row>, shown: string -> string, plain: string -> string,
                      secret: int): seq<string> {
    if rows == [] then ["_None recorded._"]
    else
      ["| " + JoinCells(headers) + " |", "| " + JoinCells(seq(|headers|, i => "---")) + " |"]
      + seq(|rows|, k requires 0 <= k < |rows| =>
          "| " + JoinCells(seq(|rows[k]|, i requires 0 <= i < |rows[k]| =>
            Cell(if i == secret then plain else shown, rows[k][i]))) + " |")
  }

  /** What the notes show of a case. */
  datatype State = State(
    target: string, created: string, updated: string, scanCommand: string, hosts: seq<Row>, services: seq<Row>,
    findings: seq<Row>, identities: seq<Row>, credentials: seq<Row>, shares: seq<Row>, actions: seq<string>)

  function ActionLines(actions: seq<string>, shown: string -> string): seq<string> {
    if actions == [] then ["_None queued._"]
    else seq(|actions|, i requires 0 <= i < |actions| => "- [ ] " + Cell(shown, actions[i]))
  }

  function Section(title: string, lines: seq<string>): seq<string> {
    ["## " + title, ""] + lines + [""]
  }

  function TableSection(title: string, headers: seq<string>, rows: seq<Row>, shown: string -> string,
                        plain: string -> string,
                        secret: int): seq<string>
  {
    Section(title, TableLines(headers, rows, shown, plain, secret))
  }

  function Quoted(caption: string, cell: string): string {
    caption + cell + "`"
  }

  function Head(s: State, shown: string -> string, plain: string -> string): seq<string> {
    ["# Recon case: " + Cell(shown, s.target), "", Quoted("- Target: `", Cell(shown, s.target)),
     Quoted("- Created: `", Cell(plain, s.created)), Quoted("- Updated: `", Cell(plain, s.updated)),
     Quoted("- Last scan command: `", Cell(shown, s.scanCommand)), ""]
  }

  const HOSTS := ["Address", "Status", "Hostnames", "OS guess"]
  const SERVICES := ["Host", "Port", "Protocol", "State", "Service", "Version", "Scripts"]
  const FINDINGS := ["Category", "Finding", "Source"]
  const IDENTITIES := ["Domains", "Users"]
  const CREDENTIALS := ["Domain", "Username", "Secret", "Status", "Source"]
  const SHARES := ["Host", "Share", "Permissions", "Remark", "Source"]

  /** The tables of scan results. */
  function ScanSections(s: State, shown: string -> string, plain: string -> string): seq<string> {
    TableSection("Hosts", HOSTS, s.hosts, shown, plain, -1)
    + TableSection("Ports and services", SERVICES, s.services, shown, plain, -1)
    + TableSection("Findings", FINDINGS, s.findings, shown, plain, -1)
  }

  /** The tables of identities and shares, and the queue; only the secret column shows secrets. */
  function LootSections(s: State, shown: string -> string, plain: string -> string): seq<string> {
    TableSection("Domains and users", IDENTITIES, s.identities, shown, plain, -1)
    + TableSection("Credentials", CREDENTIALS, s.credentials, shown, plain, 2)
    + TableSection("Shares", SHARES, s.shares, shown, plain, -1)
    + Section("Next actions", ActionLines(s.actions, shown))
  }

  /** Everything before the managed section, line by line. */
  function Lines(s: State, shown: string -> string, plain: string -> string): seq<string> {
    Head(s, shown, plain) + ScanSections(s, shown, plain) + LootSections(s, shown, plain)
  }

  function Unlines(lines: seq<string>): string {
    if lines == [] then "" else lines[0] + "\n" + Unlines(lines[1..])
  }

  /** The managed section at the end of the document. */
  function Managed(manual: string): string {
    HEADING + "\n\n" + MANUAL_START + manual + MANUAL_END + "\n"
  }

  /** render_notes() */
  function RenderNotes(s: State, shown: string -> string, plain: string -> string, existing: string): string {
    Unlines(Lines(s, shown, plain)) + Managed(ManualContent(existing))
  }

  // ------------------------------------------------------------- cells stay in line

  predicate OneLine(s: string) {
    '\n' !in s
  }

  lemma {:induction false} ReplaceOneLine(s: string, old': string, new': string)
    requires old' != "" && OneLine(new') && (OneLine(s) || old' == "\n")
    ensures OneLine(Replace(s, old', new'))
    decreases |s|
  {
    if old' <= s {
      ReplaceOneLine(s[|old'|..], old', new');
    } else if s != "" {
      ReplaceOneLine(s[1..], old', new');
    }
  }

  /** No cell ever contains a line break, whatever the scanner wrote. */
  lemma CellOneLine(display: string -> string, value: string)
    ensures OneLine(Cell(display, value))
  {
    var a := Replace(DropControls(display(value)), MANUAL_START, NEUTRAL_START);
    var b := Replace(a, MANUAL_END, NEUTRAL_END);
    var c := Replace(Replace(b, "\\", "\\\\"), "|", "\\|");
    var d := Replace(c, "\r\n", "<br>");
    ReplaceOneLine(d, "\n", "<br>");
    ReplaceOneLine(Replace(d, "\n", "<br>"), "\r", "<br>");
  }

  /** Every bar is escaped, and so is every backslash: nothing in the text can be taken for the end of its column. */
  predicate Escaped(s: string) {
    s == ""
    || (s[0] == '\\' && |s| >= 2 && (s[1] == '\\' || s[1] == '|') && Escaped(s[2..]))
    || (s[0] != '\\' && s[0] != '|' && Escaped(s[1..]))
  }

  /** A character that begins no match stays in front. */
  lemma PassOver(s: string, c: char, old': string, new': string)
    requires old' != "" && !(old' <= [c] + s)
    ensures Replace([c] + s, old', new') == [c] + Replace(s, old', new')
  {
    assert ([c] + s)[1..] == s && ([c] + s)[0] == c;
  }

  lemma PairEscaped(c: char, s: string)
    requires (c == '\\' || c == '|') && Escaped(s)
    ensures Escaped(['\\'] + ([c] + s))
  {
    var text := ['\\'] + ([c] + s);
    assert text[0] == '\\' && text[1] == c && text[2..] == s;
  }

  lemma PlainEscaped(c: char, s: string)
    requires c != '\\' && c != '|' && Escaped(s)
    ensures Escaped([c] + s)
  {
    assert ([c] + s)[1..] == s;
  }

  lemma Unmatched(c: char, s: string, old': string)
    requires old' != "" && old'[0] != c
    ensures !(old' <= [c] + s)
  {
    assert ([c] + s)[0] == c;
  }

  lemma {:induction false} EscapingEscapes(s: string)
    ensures Escaped(Replace(Replace(s, "\\", "\\\\"), "|", "\\|"))
  {
    if s != "" {
      var inner := Replace(s[1..], "\\", "\\\\");
      EscapingEscapes(s[1..]);
      if s[0] == '\\' {
        assert Replace(s, "\\", "\\\\") == ['\\'] + (['\\'] + inner);
        Unmatched('\\', ['\\'] + inner, "|");
        Unmatched('\\', inner, "|");
        PassOver(['\\'] + inner, '\\', "|", "\\|");
        PassOver(inner, '\\', "|", "\\|");
        PairEscaped('\\', Replace(inner, "|", "\\|"));
      } else {
        assert !("\\" <= s) && Replace(s, "\\", "\\\\") == [s[0]] + inner;
        EscapeOne(s[0], inner);
      }
    }
  }

  lemma EscapeOne(c: char, inner: string)
    requires c != '\\' && Escaped(Replace(inner, "|", "\\|"))
    ensures Escaped(Replace([c] + inner, "|", "\\|"))
  {
    if c == '|' {
      assert "|" <= [c] + inner && ([c] + inner)[1..] == inner;
      assert "\\|" + Replace(inner, "|", "\\|") == ['\\'] + (['|'] + Replace(inner, "|", "\\|"));
      PairEscaped('|', Replace(inner, "|", "\\|"));
    } else {
      Unmatched(c, inner, "|");
      PassOver(inner, c, "|", "\\|");
      PlainEscaped(c, Replace(inner, "|", "\\|"));
    }
  }

  /** Replacing line breaks leaves every escape alone. */
  lemma {:induction false} BreaksKeepEscapes(s: string, old': string)
    requires Escaped(s) && old' in {"\r\n", "\n", "\r"}
    ensures Escaped(Replace(s, old', "<br>"))
    decreases |s|
  {
    if old' <= s {
      EscapedAfter(s, old');
      BreaksKeepEscapes(s[|old'|..], old');
      BreakEscaped(Replace(s[|old'|..], old', "<br>"));
    } else if s != "" && s[0] == '\\' {
      BreaksKeepEscapes(s[2..], old');
      assert s == ['\\'] + ([s[1]] + s[2..]);
      Unmatched('\\', [s[1]] + s[2..], old');
      Unmatched(s[1], s[2..], old');
      PassOver([s[1]] + s[2..], '\\', old', "<br>");
      PassOver(s[2..], s[1], old', "<br>");
      PairEscaped(s[1], Replace(s[2..], old', "<br>"));
    } else if s != "" {
      BreaksKeepEscapes(s[1..], old');
      PlainEscaped(s[0], Replace(s[1..], old', "<br>"));
    }
  }

  lemma EscapedAfter(s: string, front: string)
    requires Escaped(s) && front <= s && front in {"\r\n", "\n", "\r"}
    ensures Escaped(s[|front|..])
  {
    if front == "\r\n" { assert s[1..][1..] == s[2..] && s[1] == '\n'; }
  }

  lemma BreakEscaped(s: string)
    requires Escaped(s)
    ensures Escaped("<br>" + s)
  {
    var text := "<br>" + s;
    assert text[1..] == "br>" + s && text[1..][1..] == "r>" + s && text[1..][1..][1..] == ">" + s;
    assert (">" + s)[1..] == s;
    assert Escaped(">" + s) && Escaped("r>" + s) && Escaped("br>" + s);
  }

  /** No cell can break out of its column, whatever the scanner wrote. */
  lemma CellEscaped(display: string -> string, value: string)
    ensures Escaped(Cell(display, value))
  {
    var a := Replace(DropControls(display(value)), MANUAL_START, NEUTRAL_START);
    var b := Replace(a, MANUAL_END, NEUTRAL_END);
    var c := Replace(Replace(b, "\\", "\\\\"), "|", "\\|");
    EscapingEscapes(b);
    BreaksKeepEscapes(c, "\r\n");
    BreaksKeepEscapes(Replace(c, "\r\n", "<br>"), "\n");
    BreaksKeepEscapes(Replace(Replace(c, "\r\n", "<br>"), "\n", "<br>"), "\r");
  }

  lemma {:induction false} JoinOneLine(cells: seq<string>)
    requires forall i :: 0 <= i < |cells| ==> OneLine(cells[i])
    ensures OneLine(JoinCells(cells))
  {
    if |cells| > 1 { JoinOneLine(cells[..|cells| - 1]); }
  }

  /** A line that cannot be taken for the heading of the managed section. */
  predicate Ordinary(line: string) {
    OneLine(line) && !(HEADING <= line)
  }

  ghost predicate AllOrdinary(lines: seq<string>) {
    forall i :: 0 <= i < |lines| ==> Ordinary(lines[i])
  }

  lemma Barred(content: string)
    requires OneLine(content)
    ensures Ordinary("| " + content + " |")
  {
    assert ("| " + content + " |")[0] == '|' && HEADING[0] == '#';
  }

  lemma TableOrdinary(headers: seq<string>, rows: seq<Row>, shown: string -> string, plain: string -> string,
                      secret: int)
    requires forall i :: 0 <= i < |headers| ==> OneLine(headers[i])
    ensures AllOrdinary(TableLines(headers, rows, shown, plain, secret))
  {
    if rows == [] {
      assert "_None recorded._"[0] == '_' && HEADING[0] == '#';
    } else {
      JoinOneLine(headers);
      Barred(JoinCells(headers));
      JoinOneLine(seq(|headers|, i => "---"));
      Barred(JoinCells(seq(|headers|, i => "---")));
      forall k | 0 <= k < |rows|
        ensures Ordinary("| " + JoinCells(seq(|rows[k]|, i requires 0 <= i < |rows[k]| =>
          Cell(if i == secret then plain else shown, rows[k][i]))) + " |")
      {
        var cells := seq(|rows[k]|, i requires 0 <= i < |rows[k]| =>
          Cell(if i == secret then plain else shown, rows[k][i]));
        forall i | 0 <= i < |cells| ensures OneLine(cells[i]) {
          CellOneLine(if i == secret then plain else shown, rows[k][i]);
        }
        JoinOneLine(cells);
        Barred(JoinCells(cells));
      }
    }
  }

  lemma ActionsOrdinary(actions: seq<string>, shown: string -> string)
    ensures AllOrdinary(ActionLines(actions, shown))
  {
    if actions == [] {
      assert "_None queued._"[0] == '_' && HEADING[0] == '#';
    } else {
      forall i | 0 <= i < |actions| ensures Ordinary("- [ ] " + Cell(shown, actions[i])) {
        CellOneLine(shown, actions[i]);
        assert ("- [ ] " + Cell(shown, actions[i]))[0] == '-' && HEADING[0] == '#';
      }
    }
  }

  lemma QuotedOrdinary(caption: string, cell: string)
    requires OneLine(caption) && OneLine(cell) && caption != "" && caption[0] == '-'
    ensures Ordinary(Quoted(caption, cell))
  {
    assert Quoted(caption, cell)[0] == '-' && HEADING[0] == '#';
  }

  lemma TitleOrdinary(cell: string)
    requires OneLine(cell)
    ensures Ordinary("# Recon case: " + cell)
  {
    assert ("# Recon case: " + cell)[1] == ' ' && HEADING[1] == '#';
  }

  lemma JoinOrdinary(a: seq<string>, b: seq<string>)
    requires AllOrdinary(a) && AllOrdinary(b)
    ensures AllOrdinary(a + b)
  {
  }

  lemma SectionOrdinary(title: string, lines: seq<string>)
    requires title != "" && title[0] != 'M' && OneLine(title) && AllOrdinary(lines)
    ensures AllOrdinary(Section(title, lines))
  {
    assert ("## " + title)[3] == title[0] && HEADING[3] == 'M';
    assert Ordinary("") && Ordinary("## " + title);
    JoinOrdinary(["## " + title, ""], lines);
    JoinOrdinary(["## " + title, ""] + lines, [""]);
  }

  lemma HeadOrdinary(s: State, shown: string -> string, plain: string -> string)
    ensures AllOrdinary(Head(s, shown, plain))
  {
    CellOneLine(shown, s.target);
    CellOneLine(plain, s.created);
    CellOneLine(plain, s.updated);
    CellOneLine(shown, s.scanCommand);
    HeadLines(Cell(shown, s.target), Cell(plain, s.created), Cell(plain, s.updated), Cell(shown, s.scanCommand));
  }

  lemma HeadLines(target: string, created: string, updated: string, command: string)
    requires OneLine(target) && OneLine(created) && OneLine(updated) && OneLine(command)
    ensures AllOrdinary(["# Recon case: " + target, "", Quoted("- Target: `", target), Quoted("- Created: `", created),
                         Quoted("- Updated: `", updated), Quoted("- Last scan command: `", command), ""])
  {
    TitleOrdinary(target);
    QuotedOrdinary("- Target: `", target);
    QuotedOrdinary("- Created: `", created);
    QuotedOrdinary("- Updated: `", updated);
    QuotedOrdinary("- Last scan command: `", command);
    assert Ordinary("");
  }

  lemma TableSectionOrdinary(title: string, headers: seq<string>, rows: seq<Row>, shown: string -> string,
                             plain: string -> string,
                             secret: int)
    requires title != "" && title[0] != 'M' && OneLine(title) && forall i :: 0 <= i < |headers| ==> OneLine(headers[i])
    ensures AllOrdinary(TableSection(title, headers, rows, shown, plain, secret))
  {
    TableOrdinary(headers, rows, shown, plain, secret);
    SectionOrdinary(title, TableLines(headers, rows, shown, plain, secret));
  }

  lemma HeadersInLine()
    ensures forall i :: 0 <= i < |HOSTS| ==> OneLine(HOSTS[i])
    ensures forall i :: 0 <= i < |SERVICES| ==> OneLine(SERVICES[i])
    ensures forall i :: 0 <= i < |FINDINGS| ==> OneLine(FINDINGS[i])
    ensures forall i :: 0 <= i < |IDENTITIES| ==> OneLine(IDENTITIES[i])
    ensures forall i :: 0 <= i < |CREDENTIALS| ==> OneLine(CREDENTIALS[i])
    ensures forall i :: 0 <= i < |SHARES| ==> OneLine(SHARES[i])
  {
  }

  lemma JoinThree(a: seq<string>, b: seq<string>, c: seq<string>)
    requires AllOrdinary(a) && AllOrdinary(b) && AllOrdinary(c)
    ensures AllOrdinary(a + b + c)
  {
    JoinOrdinary(a, b);
    JoinOrdinary(a + b, c);
  }

  lemma ScanOrdinary(s: State, shown: string -> string, plain: string -> string)
    ensures AllOrdinary(ScanSections(s, shown, plain))
  {
    HeadersInLine();
    TableSectionOrdinary("Hosts", HOSTS, s.hosts, shown, plain, -1);
    TableSectionOrdinary("Ports and services", SERVICES, s.services, shown, plain, -1);
    TableSectionOrdinary("Findings", FINDINGS, s.findings, shown, plain, -1);
    JoinThree(TableSection("Hosts", HOSTS, s.hosts, shown, plain, -1),
              TableSection("Ports and services", SERVICES, s.services, shown, plain, -1),
              TableSection("Findings", FINDINGS, s.findings, shown, plain, -1));
  }

  lemma LootOrdinary(s: State, shown: string -> string, plain: string -> string)
    ensures AllOrdinary(LootSections(s, shown, plain))
  {
    HeadersInLine();
    TableSectionOrdinary("Domains and users", IDENTITIES, s.identities, shown, plain, -1);
    TableSectionOrdinary("Credentials", CREDENTIALS, s.credentials, shown, plain, 2);
    TableSectionOrdinary("Shares", SHARES, s.shares, shown, plain, -1);
    ActionsOrdinary(s.actions, shown);
    SectionOrdinary("Next actions", ActionLines(s.actions, shown));
    var tables := TableSection("Domains and users", IDENTITIES, s.identities, shown, plain, -1)
      + TableSection("Credentials", CREDENTIALS, s.credentials, shown, plain, 2)
      + TableSection("Shares", SHARES, s.shares, shown, plain, -1);
    JoinThree(TableSection("Domains and users", IDENTITIES, s.identities, shown, plain, -1),
              TableSection("Credentials", CREDENTIALS, s.credentials, shown, plain, 2),
              TableSection("Shares", SHARES, s.shares, shown, plain, -1));
    JoinOrdinary(tables, Section("Next actions", ActionLines(s.actions, shown)));
  }

  /** No rendered line before the managed section starts like its heading. */
  lemma LinesOrdinary(s: State, shown: string -> string, plain: string -> string)
    ensures AllOrdinary(Lines(s, shown, plain))
  {
    HeadOrdinary(s, shown, plain);
    ScanOrdinary(s, shown, plain);
    LootOrdinary(s, shown, plain);
    JoinThree(Head(s, shown, plain), ScanSections(s, shown, plain), LootSections(s, shown, plain));
  }

  // ------------------------------------------------------------------- the law

  /** Inside a line nothing is found: the search goes on after its end. */
  lemma {:induction false} SkipLine(line: string, rest: string)
    requires OneLine(line)
    ensures FindSection(line + "\n" + rest, false) == FindSection(rest, true)
  {
    var text := line + "\n" + rest;
    if line == "" {
      assert text[1..] == rest && text[0] == '\n';
    } else {
      assert text[1..] == line[1..] + "\n" + rest && text[0] == line[0];
      SkipLine(line[1..], rest);
    }
  }

  lemma HeadingWithinLine(line: string, rest: string)
    requires OneLine(line) && HEADING <= line + "\n" + rest
    ensures HEADING <= line
  {
    var text := line + "\n" + rest;
    assert OneLine(HEADING) && text[|line|] == '\n';
    assert forall i :: 0 <= i < |line| ==> text[i] == line[i];
  }

  lemma NotHere(line: string, rest: string)
    requires Ordinary(line)
    ensures SectionHere(line + "\n" + rest).None?
  {
    if HEADING <= line + "\n" + rest {
      HeadingWithinLine(line, rest);
      assert false;
    }
  }

  lemma SkipOrdinary(line: string, rest: string)
    requires Ordinary(line)
    ensures FindSection(line + "\n" + rest, true) == FindSection(rest, true)
  {
    var text := line + "\n" + rest;
    NotHere(line, rest);
    SkipLine(line, rest);
    assert FindSection(text, true) == FindSection(text, false);
  }

  lemma {:induction false} SkipLines(lines: seq<string>, rest: string)
    requires AllOrdinary(lines)
    ensures FindSection(Unlines(lines) + rest, true) == FindSection(rest, true)
  {
    if lines == [] {
      assert Unlines(lines) + rest == rest;
    } else {
      assert Unlines(lines) + rest == lines[0] + "\n" + (Unlines(lines[1..]) + rest);
      SkipOrdinary(lines[0], Unlines(lines[1..]) + rest);
      SkipLines(lines[1..], rest);
    }
  }

  lemma SectionFound(tail: string)
    ensures FindSection(HEADING + "\n\n" + MANUAL_START + tail, true) == Some(tail)
  {
    var text := HEADING + "\n\n" + MANUAL_START + tail;
    assert text[|HEADING|..] == "\n\n" + MANUAL_START + tail;
    var a := "\n\n" + MANUAL_START + tail;
    assert SkipBlanks(a) == a && a[1..] == "\n" + MANUAL_START + tail;
    var b := "\n" + MANUAL_START + tail;
    assert b[1..] == MANUAL_START + tail;
    assert (MANUAL_START + tail)[|MANUAL_START|..] == tail;
  }

  lemma {:induction false} BlanksOnly(s: string, i: nat)
    requires OnlyBreak(s) && i < |s|
    ensures s[i] == ' ' || s[i] == '\t' || s[i] == '\r' || s[i] == '\n'
  {
    if s[0] == ' ' || s[0] == '\t' {
      if i > 0 { BlanksOnly(s[1..], i - 1); }
    }
  }

  /** The end marker does not overlap itself: its opening bracket occurs once. */
  lemma NoOverlap(k: nat)
    requires 0 < k < |MANUAL_END|
    ensures MANUAL_END[k] != '<'
  {
  }

  /** No text before the final end marker can be taken for it. */
  lemma NotEndYet(manual: string)
    requires manual != ""
    ensures !EndHere(manual + MANUAL_END + "\n")
  {
    var text, n := manual + MANUAL_END + "\n", |MANUAL_END|;
    assert text[|manual|] == '<';
    if EndHere(text) {
      if |manual| < n {
        assert MANUAL_END[|manual|] == text[|manual|];
        NoOverlap(|manual|);
      } else {
        assert text[n..][|manual| - n] == '<';
        BlanksOnly(text[n..], |manual| - n);
      }
    }
  }

  lemma {:induction false} EndFound(manual: string)
    ensures BeforeEnd(manual + MANUAL_END + "\n") == Some(manual)
  {
    var text := manual + MANUAL_END + "\n";
    if manual == "" {
      assert text == MANUAL_END + "\n" && text[|MANUAL_END|..] == "\n";
      assert SkipBlanks("\n") == "\n";
    } else {
      NotEndYet(manual);
      assert text[1..] == manual[1..] + MANUAL_END + "\n";
      EndFound(manual[1..]);
      assert [manual[0]] + manual[1..] == manual;
    }
  }

  /** The managed section read back from any document that ends in it. */
  lemma ManagedRead(lines: seq<string>, manual: string)
    requires AllOrdinary(lines)
    ensures ManualContent(Unlines(lines) + Managed(manual)) == manual
  {
    var tail := manual + MANUAL_END + "\n";
    assert Managed(manual) == HEADING + "\n\n" + MANUAL_START + tail;
    SkipLines(lines, Managed(manual));
    SectionFound(tail);
    EndFound(manual);
  }

  /** Rendering keeps the manual section, for every case and every existing text. */
  lemma ManualKept(s: State, shown: string -> string, plain: string -> string, existing: string)
    ensures ManualContent(RenderNotes(s, shown, plain, existing)) == ManualContent(existing)
  {
    LinesOrdinary(s, shown, plain);
    ManagedRead(Lines(s, shown, plain), ManualContent(existing));
  }

  /** Rendering again changes nothing. */
  lemma RenderSettles(s: State, shown: string -> string, plain: string -> string, existing: string)
    ensures RenderNotes(s, shown, plain, RenderNotes(s, shown, plain, existing)) ==
      RenderNotes(s, shown, plain, existing)
  {
    ManualKept(s, shown, plain, existing);
  }

  // ------------------------------------------------------------------ redaction

  /** Two ways of showing values without redaction that agree on the secret column. */
  ghost predicate SameSecrets(rows: seq<Row>, secret: int, plain: string -> string, other: string -> string) {
    forall k :: 0 <= k < |rows| && 0 <= secret < |rows[k]| ==> plain(rows[k][secret]) == other(rows[k][secret])
  }

  function RowLine(row: Row, shown: string -> string, plain: string -> string, secret: int): string {
    "| " + JoinCells(seq(|row|, i requires 0 <= i < |row| => Cell(if i == secret then plain else shown, row[i]))) + " |"
  }

  lemma RowRedacted(row: Row, shown: string -> string, plain: string -> string, other: string -> string, secret: int)
    requires 0 <= secret < |row| ==> plain(row[secret]) == other(row[secret])
    ensures RowLine(row, shown, plain, secret) == RowLine(row, shown, other, secret)
  {
    assert seq(|row|, i requires 0 <= i < |row| => Cell(if i == secret then plain else shown, row[i]))
        == seq(|row|, i requires 0 <= i < |row| => Cell(if i == secret then other else shown, row[i]));
  }

  lemma TableRows(headers: seq<string>, rows: seq<Row>, shown: string -> string, plain: string -> string, secret: int)
    requires rows != []
    ensures TableLines(headers, rows, shown, plain, secret) ==
      ["| " + JoinCells(headers) + " |", "| " + JoinCells(seq(|headers|, i => "---")) + " |"]
      + seq(|rows|, k requires 0 <= k < |rows| => RowLine(rows[k], shown, plain, secret))
  {
    assert seq(|rows|, k requires 0 <= k < |rows| =>
      "| " + JoinCells(seq(|rows[k]|, i requires 0 <= i < |rows[k]| =>
        Cell(if i == secret then plain else shown, rows[k][i]))) + " |")
      == seq(|rows|, k requires 0 <= k < |rows| => RowLine(rows[k], shown, plain, secret));
  }

  /** A table shows nothing unredacted but its secret column. */
  lemma TableRedacted(headers: seq<string>, rows: seq<Row>, shown: string -> string, plain: string -> string,
                      other: string -> string, secret: int)
    requires SameSecrets(rows, secret, plain, other)
    ensures TableLines(headers, rows, shown, plain, secret) == TableLines(headers, rows, shown, other, secret)
  {
    if rows != [] {
      TableRows(headers, rows, shown, plain, secret);
      TableRows(headers, rows, shown, other, secret);
      forall k | 0 <= k < |rows|
        ensures RowLine(rows[k], shown, plain, secret) == RowLine(rows[k], shown, other, secret)
      {
        RowRedacted(rows[k], shown, plain, other, secret);
      }
      assert seq(|rows|, k requires 0 <= k < |rows| => RowLine(rows[k], shown, plain, secret))
          == seq(|rows|, k requires 0 <= k < |rows| => RowLine(rows[k], shown, other, secret));
    }
  }

  lemma ScanRedacted(s: State, shown: string -> string, plain: string -> string, other: string -> string)
    ensures ScanSections(s, shown, plain) == ScanSections(s, shown, other)
  {
    TableRedacted(HOSTS, s.hosts, shown, plain, other, -1);
    TableRedacted(SERVICES, s.services, shown, plain, other, -1);
    TableRedacted(FINDINGS, s.findings, shown, plain, other, -1);
  }

  lemma LootRedacted(s: State, shown: string -> string, plain: string -> string, other: string -> string)
    requires SameSecrets(s.credentials, 2, plain, other)
    ensures LootSections(s, shown, plain) == LootSections(s, shown, other)
  {
    TableRedacted(IDENTITIES, s.identities, shown, plain, other, -1);
    TableRedacted(CREDENTIALS, s.credentials, shown, plain, other, 2);
    TableRedacted(SHARES, s.shares, shown, plain, other, -1);
  }

  /** The notes depend on unredacted values only through the two dates and the secrets of the credentials. */
  lemma OnlySecretsPlain(s: State, shown: string -> string, plain: string -> string, other: string -> string,
                         existing: string)
    requires plain(s.created) == other(s.created) && plain(s.updated) == other(s.updated)
    requires SameSecrets(s.credentials, 2, plain, other)
    ensures RenderNotes(s, shown, plain, existing) == RenderNotes(s, shown, other, existing)
  {
    ScanRedacted(s, shown, plain, other);
    LootRedacted(s, shown, plain, other);
    assert Head(s, shown, plain) == Head(s, shown, other);
  }

  /** Every row of every table has its line in the notes, and so has every queued action. */
  ghost predicate AllShown(lines: seq<string>, rows: seq<Row>, shown: string -> string, plain: string -> string,
                           secret: int)
  {
    forall k :: 0 <= k < |rows| ==> RowLine(rows[k], shown, plain, secret) in lines
  }

  lemma SectionShown(title: string, lines: seq<string>, line: string)
    requires line in lines
    ensures line in Section(title, lines)
  {
  }

  lemma RowInTable(headers: seq<string>, rows: seq<Row>, shown: string -> string, plain: string -> string, secret: int,
                   k: nat)
    requires k < |rows|
    ensures RowLine(rows[k], shown, plain, secret) in TableLines(headers, rows, shown, plain, secret)
  {
    TableRows(headers, rows, shown, plain, secret);
    After(["| " + JoinCells(headers) + " |", "| " + JoinCells(seq(|headers|, i => "---")) + " |"],
          seq(|rows|, k requires 0 <= k < |rows| => RowLine(rows[k], shown, plain, secret)), k);
  }

  lemma After(head: seq<string>, tail: seq<string>, k: nat)
    requires k < |tail|
    ensures tail[k] in head + tail
  {
    assert (head + tail)[|head| + k] == tail[k];
  }

  lemma TableShown(title: string, headers: seq<string>, rows: seq<Row>, shown: string -> string,
                   plain: string -> string, secret: int)
    ensures AllShown(TableSection(title, headers, rows, shown, plain, secret), rows, shown, plain, secret)
  {
    var table := TableLines(headers, rows, shown, plain, secret);
    forall k | 0 <= k < |rows| ensures RowLine(rows[k], shown, plain, secret) in Section(title, table) {
      RowInTable(headers, rows, shown, plain, secret, k);
      SectionShown(title, table, RowLine(rows[k], shown, plain, secret));
    }
  }

  lemma ActionsShown(actions: seq<string>, shown: string -> string)
    ensures forall i :: 0 <= i < |actions| ==>
      "- [ ] " + Cell(shown, actions[i]) in Section("Next actions", ActionLines(actions, shown))
  {
    forall i | 0 <= i < |actions|
      ensures "- [ ] " + Cell(shown, actions[i]) in Section("Next actions", ActionLines(actions, shown))
    {
      assert ActionLines(actions, shown)[i] == "- [ ] " + Cell(shown, actions[i]);
      SectionShown("Next actions", ActionLines(actions, shown), "- [ ] " + Cell(shown, actions[i]));
    }
  }

  lemma ScanShown(s: State, shown: string -> string, plain: string -> string)
    ensures var lines := ScanSections(s, shown, plain);
      && AllShown(lines, s.hosts, shown, plain, -1) && AllShown(lines, s.services, shown, plain, -1)
      && AllShown(lines, s.findings, shown, plain, -1)
  {
    TableShown("Hosts", HOSTS, s.hosts, shown, plain, -1);
    TableShown("Ports and services", SERVICES, s.services, shown, plain, -1);
    TableShown("Findings", FINDINGS, s.findings, shown, plain, -1);
  }

  lemma LootShown(s: State, shown: string -> string, plain: string -> string)
    ensures var lines := LootSections(s, shown, plain);
      && AllShown(lines, s.identities, shown, plain, -1) && AllShown(lines, s.credentials, shown, plain, 2)
      && AllShown(lines, s.shares, shown, plain, -1)
      && forall i :: 0 <= i < |s.actions| ==> "- [ ] " + Cell(shown, s.actions[i]) in lines
  {
    TableShown("Domains and users", IDENTITIES, s.identities, shown, plain, -1);
    TableShown("Credentials", CREDENTIALS, s.credentials, shown, plain, 2);
    TableShown("Shares", SHARES, s.shares, shown, plain, -1);
    ActionsShown(s.actions, shown);
  }

  lemma EverythingShown(s: State, shown: string -> string, plain: string -> string)
    ensures var lines := Lines(s, shown, plain);
      && AllShown(lines, s.hosts, shown, plain, -1) && AllShown(lines, s.services, shown, plain, -1)
      && AllShown(lines, s.findings, shown, plain, -1) && AllShown(lines, s.identities, shown, plain, -1)
      && AllShown(lines, s.credentials, shown, plain, 2) && AllShown(lines, s.shares, shown, plain, -1)
      && forall i :: 0 <= i < |s.actions| ==> "- [ ] " + Cell(shown, s.actions[i]) in lines
  {
    ScanShown(s, shown, plain);
    LootShown(s, shown, plain);
    var lines, scan, loot := Lines(s, shown, plain), ScanSections(s, shown, plain), LootSections(s, shown, plain);
    assert forall line :: line in scan ==> line in lines;
    assert forall line :: line in loot ==> line in lines;
  }

  /** And a secret is shown as it is, whatever the redaction makes of it: its cell depends on nothing else. */
  lemma SecretShown(row: Row, shown: string -> string, other: string -> string, plain: string -> string)
    requires |row| == 5 && forall i :: 0 <= i < 5 && i != 2 ==> shown(row[i]) == other(row[i])
    ensures RowLine(row, shown, plain, 2) == RowLine(row, other, plain, 2)
  {
    forall i | 0 <= i < 5
      ensures Cell(if i == 2 then plain else shown, row[i]) == Cell(if i == 2 then plain else other, row[i])
    {
    }
    assert seq(|row|, i requires 0 <= i < |row| => Cell(if i == 2 then plain else shown, row[i]))
        == seq(|row|, i requires 0 <= i < |row| => Cell(if i == 2 then plain else other, row[i]));
  }
}
