/** The blacklist: what the manager prints to its file, what it reads back, and the verdicts on a comment
    (app/repository/BlacklistManager.cpp). */
module BlacklistSpec {
  import opened Prelude

  // ---------- Text ----------

  predicate Blank(c: char) {
    c == ' ' || c == '\t'
  }

  function TrimLeft(s: string): (r: string)
    ensures r != "" ==> !Blank(r[0])
  {
    if s != "" && Blank(s[0]) then TrimLeft(s[1..]) else s
  }

  function TrimRight(s: string): (r: string)
    ensures r <= s && (r != "" ==> !Blank(r[|r| - 1]))
    decreases |s|
  {
    if s != "" && Blank(s[|s| - 1]) then TrimRight(s[..|s| - 1]) else s
  }

  function Trim(s: string): string {
    TrimRight(TrimLeft(s))
  }

  /** One carriage return at the end of a line belongs to the line break. */
  function StripCr(s: string): string {
    if s != "" && s[|s| - 1] == '\r' then s[..|s| - 1] else s
  }

  /** The position of the first line break, |s| when there is none. */
  function LineEnd(s: string): (n: nat)
    ensures n <= |s| && '\n' !in s[..n] && (n < |s| ==> s[n] == '\n')
  {
    if s == "" || s[0] == '\n' then 0
    else
      var n := 1 + LineEnd(s[1..]);
      assert s[..n] == [s[0]] + s[1..][..n - 1];
      n
  }

  /** The lines that repeated getline calls deliver. */
  function Lines(s: string): seq<string>
    decreases |s|
  {
    if s == "" then []
    else
      var n := LineEnd(s);
      [s[..n]] + Lines(if n < |s| then s[n + 1..] else "")
  }

  function Unlines(lines: seq<string>): string {
    if lines == [] then "" else lines[0] + "\n" + Unlines(lines[1..])
  }

  // ---------- Reading ----------

  datatype Reason = NoReason | Nickname | Ip | Keyword

  datatype Data = Data(nicks: set<string>, ips: set<string>, keywords: seq<string>)

  const EMPTY := Data({}, {}, [])

  datatype Line = Skip | Section(reason: Reason) | Entry(text: string)

  function Clean(raw: string): string {
    Trim(StripCr(raw))
  }

  predicate Bracketed(s: string) {
    s != "" && s[0] == '[' && s[|s| - 1] == ']'
  }

  function Tag(s: string): Reason
    requires Bracketed(s)
  {
    if s == "[nick]" then Nickname else if s == "[ip]" then Ip else if s == "[kw]" then Keyword else NoReason
  }

  function Classify(raw: string): Line {
    var line := Clean(raw);
    if line == "" || line[0] == '#' then Skip
    else if Bracketed(line) then Section(Tag(line))
    else Entry(line)
  }

  /** The section being read and what has been read so far. */
  datatype Reader = Reader(cur: Reason, data: Data)

  function Insert(data: Data, reason: Reason, text: string): Data {
    match reason
    case Nickname => data.(nicks := data.nicks + {text})
    case Ip => data.(ips := data.ips + {text})
    case Keyword => data.(keywords := data.keywords + [ToLower(text)])
    case NoReason => data
  }

  function ReadLine(r: Reader, raw: string): Reader {
    match Classify(raw)
    case Skip => r
    case Section(reason) => r.(cur := reason)
    case Entry(text) => r.(data := Insert(r.data, r.cur, text))
  }

  function ReadLines(r: Reader, lines: seq<string>): Reader
    decreases lines
  {
    if lines == [] then r else ReadLines(ReadLine(r, lines[0]), lines[1..])
  }

  function Fetch(file: string): Data {
    ReadLines(Reader(NoReason, EMPTY), Lines(file)).data
  }

  // ---------- Printing ----------

  const TITLE := "# 留言系统黑名单配置（单文件分区格式，由系统自动维护）"
  const USAGE := "# 用 [nick] / [ip] / [kw] 切换维度" + "，每行一个条目，# 开头为注释"

  /** What Initialize writes into a file that does not exist yet. */
  const NEW_TITLE := "# 留言系统黑名单配置（单文件分区格式）"
  const TEMPLATE := Unlines([NEW_TITLE, USAGE, "[nick]", "[ip]", "[kw]"])

  /** The lines of the file, the two sets in the order in which they are walked. */
  function Printed(nicks: seq<string>, ips: seq<string>, keywords: seq<string>): seq<string> {
    [TITLE, USAGE, "[nick]"] + nicks + ["[ip]"] + ips + ["[kw]"] + keywords
  }

  function File(nicks: seq<string>, ips: seq<string>, keywords: seq<string>): string {
    Unlines(Printed(nicks, ips, keywords))
  }

  ghost predicate Orders(order: seq<string>, s: set<string>) {
    (forall e :: e in order <==> e in s) && |order| == |s|
  }

  // ---------- Verdicts ----------

  datatype Verdict = Verdict(reason: Reason, detail: string)

  predicate FoundAt(s: string, part: string, i: nat) {
    i + |part| <= |s| && s[i..i + |part|] == part
  }

  predicate Contains(s: string, part: string) {
    exists i: nat :: i <= |s| && FoundAt(s, part, i)
  }

  predicate Hit(keyword: string, lower: string) {
    keyword != "" && Contains(lower, keyword)
  }

  function FirstHit(keywords: seq<string>, lower: string): Option<string> {
    if keywords == [] then None
    else if Hit(keywords[0], lower) then Some(keywords[0])
    else FirstHit(keywords[1..], lower)
  }

  function Check(data: Data, nick: string, ip: string, content: string): Verdict {
    if nick in data.nicks then Verdict(Nickname, nick)
    else if ip != "" && ip in data.ips then Verdict(Ip, ip)
    else
      match FirstHit(data.keywords, ToLower(content))
      case Some(k) => Verdict(Keyword, k)
      case None => Verdict(NoReason, "")
  }

  // ---------- The manager ----------

  /** file is what the configuration file holds. */
  datatype Manager = Manager(data: Data, file: string)

  function NonEmpty(entries: seq<string>): set<string> {
    set e | e in entries && e != ""
  }

  /** What one call writes: None when the file cannot be opened, otherwise the orders in which the sets are walked. */
  type Writing = Option<(seq<string>, seq<string>)>

  ghost predicate Possible(data: Data, w: Writing) {
    w.Some? ==> Orders(w.value.0, data.nicks) && Orders(w.value.1, data.ips)
  }

  function Persist(m: Manager, w: Writing): Manager {
    match w
    case None => m
    case Some(orders) => m.(file := File(orders.0, orders.1, m.data.keywords))
  }

  function Added(data: Data, nicks: seq<string>, ips: seq<string>): Data {
    data.(nicks := data.nicks + NonEmpty(nicks), ips := data.ips + NonEmpty(ips))
  }

  function AddBatch(m: Manager, nicks: seq<string>, ips: seq<string>, w: Writing): Manager {
    var data := Added(m.data, nicks, ips);
    if data == m.data then m else Persist(m.(data := data), w)
  }

  function WithKeyword(data: Data, keyword: string): Data {
    if keyword == "" || ToLower(keyword) in data.keywords then data
    else data.(keywords := data.keywords + [ToLower(keyword)])
  }

  function AddKeyword(m: Manager, keyword: string, w: Writing): Manager {
    var data := WithKeyword(m.data, keyword);
    if data == m.data then m else Persist(m.(data := data), w)
  }

  /** A reload with nothing between its reading of the file and its swap; BlacklistReload takes the two apart. */
  function Reload(m: Manager): Manager {
    m.(data := Fetch(m.file))
  }

  datatype Step =
    | Batch(nicks: seq<string>, ips: seq<string>, w: Writing)
    | Key(keyword: string, w: Writing)

  ghost predicate Enabled(m: Manager, step: Step) {
    match step
    case Batch(nicks, ips, w) => Possible(Added(m.data, nicks, ips), w)
    case Key(keyword, w) => Possible(WithKeyword(m.data, keyword), w)
  }

  function Next(m: Manager, step: Step): Manager {
    match step
    case Batch(nicks, ips, w) => AddBatch(m, nicks, ips, w)
    case Key(keyword, w) => AddKeyword(m, keyword, w)
  }
}

module BlacklistTheorems {
  import opened Prelude
  import opened BlacklistSpec

  // ---------- Lines ----------

  lemma {:induction false} LineEndAt(line: string, rest: string)
    requires '\n' !in line
    ensures LineEnd(line + "\n" + rest) == |line|
  {
    var s := line + "\n" + rest;
    if line != "" {
      LineEndAt(line[1..], rest);
      assert s[1..] == line[1..] + "\n" + rest;
    }
  }

  /** getline takes off exactly one printed line. */
  lemma FirstLine(line: string, rest: string)
    requires '\n' !in line
    ensures Lines(line + "\n" + rest) == [line] + Lines(rest)
  {
    var s := line + "\n" + rest;
    LineEndAt(line, rest);
    assert s[..|line|] == line;
    assert s[|line| + 1..] == rest;
  }

  lemma UnlinesHead(lines: seq<string>, rest: string)
    requires lines != []
    ensures Unlines(lines) + rest == lines[0] + "\n" + (Unlines(lines[1..]) + rest)
  {
  }

  predicate Breakless(lines: seq<string>) {
    forall l :: l in lines ==> '\n' !in l
  }

  lemma {:induction false} LinesOfUnlines(lines: seq<string>, rest: string)
    requires Breakless(lines)
    ensures Lines(Unlines(lines) + rest) == lines + Lines(rest)
  {
    if lines == [] {
      assert Unlines(lines) + rest == rest;
    } else {
      UnlinesHead(lines, rest);
      FirstLine(lines[0], Unlines(lines[1..]) + rest);
      LinesOfUnlines(lines[1..], rest);
      HeadTail(lines, Lines(rest));
    }
  }

  function AfterLine(s: string): (rest: string)
    requires s != ""
    ensures |rest| < |s|
  {
    if LineEnd(s) < |s| then s[LineEnd(s) + 1..] else ""
  }

  lemma LinesHead(s: string)
    requires s != ""
    ensures Lines(s) == [s[..LineEnd(s)]] + Lines(AfterLine(s))
  {
  }

  lemma {:induction false} LinesHaveNoBreak(s: string, line: string)
    requires line in Lines(s)
    ensures '\n' !in line
    decreases |s|
  {
    if s != "" {
      var rest := AfterLine(s);
      LinesHead(s);
      if line != s[..LineEnd(s)] { LinesHaveNoBreak(rest, line); }
    }
  }

  lemma {:induction false} ReadAppend(r: Reader, a: seq<string>, b: seq<string>)
    ensures ReadLines(r, a + b) == ReadLines(ReadLines(r, a), b)
    decreases a
  {
    if a == [] {
      assert a + b == b;
    } else {
      assert (a + b)[1..] == a[1..] + b;
      ReadAppend(ReadLine(r, a[0]), a[1..], b);
    }
  }

  // ---------- Entries ----------

  predicate WellFormed(e: string) {
    && e != "" && '\n' !in e
    && !Blank(e[0]) && !Blank(e[|e| - 1]) && e[|e| - 1] != '\r'
    && e[0] != '#' && !Bracketed(e)
  }

  lemma {:induction false} TrimLeftShort(s: string)
    ensures |TrimLeft(s)| <= |s| && (TrimLeft(s) == s <==> s == "" || !Blank(s[0]))
    ensures forall c :: c in TrimLeft(s) ==> c in s
  {
    if s != "" && Blank(s[0]) { TrimLeftShort(s[1..]); }
  }

  lemma {:induction false} TrimFacts(s: string)
    ensures |Trim(s)| <= |s|
    ensures Trim(s) == s <==> s == "" || (!Blank(s[0]) && !Blank(s[|s| - 1]))
    ensures Trim(s) != "" ==> !Blank(Trim(s)[0]) && !Blank(Trim(s)[|Trim(s)| - 1])
    ensures forall c :: c in Trim(s) ==> c in s
  {
    TrimLeftShort(s);
  }

  lemma CleanFacts(raw: string)
    ensures |Clean(raw)| <= |raw|
    ensures Clean(raw) == raw <==> raw == "" || (!Blank(raw[0]) && !Blank(raw[|raw| - 1]) && raw[|raw| - 1] != '\r')
    ensures Clean(raw) != "" ==> !Blank(Clean(raw)[0]) && !Blank(Clean(raw)[|Clean(raw)| - 1])
    ensures forall c :: c in Clean(raw) ==> c in raw
  {
    TrimFacts(StripCr(raw));
  }

  lemma OneLine(e: string)
    requires '\n' !in e
    ensures Lines(e + "\n") == [e]
  {
    LinesOfUnlines([e], "");
    assert Unlines([e]) + "" == e + "\n";
  }

  /** A printed entry reads back as that one entry exactly when it is well formed. */
  lemma EntrySurvivesIff(e: string)
    ensures Lines(e + "\n") == [e] && Classify(e) == Entry(e) <==> WellFormed(e)
  {
    if '\n' !in e {
      OneLine(e);
      CleanFacts(e);
    } else if Lines(e + "\n") == [e] {
      LinesHaveNoBreak(e + "\n", e);
    }
  }

  lemma Survives(e: string)
    requires WellFormed(e)
    ensures Classify(e) == Entry(e)
  {
    CleanFacts(e);
  }

  lemma LowerKeepsForm(e: string)
    ensures WellFormed(ToLower(e)) <==> WellFormed(e)
    ensures ToLower(ToLower(e)) == ToLower(e)
  {
    var l := ToLower(e);
    assert forall i :: 0 <= i < |e| ==> (l[i] == '\n' <==> e[i] == '\n');
    assert '\n' in e ==> exists i :: 0 <= i < |e| && l[i] == '\n';
    assert '\n' in l ==> exists i :: 0 <= i < |e| && e[i] == '\n';
  }

  // ---------- Sections ----------

  ghost predicate AllWell(entries: seq<string>) {
    forall e :: e in entries ==> WellFormed(e)
  }

  function Elements(entries: seq<string>): set<string> {
    set e | e in entries
  }

  lemma {:induction false} ReadNicks(data: Data, entries: seq<string>)
    requires AllWell(entries)
    ensures ReadLines(Reader(Nickname, data), entries)
         == Reader(Nickname, data.(nicks := data.nicks + Elements(entries)))
    decreases entries
  {
    if entries == [] {
      assert data.nicks + Elements(entries) == data.nicks;
    } else {
      Survives(entries[0]);
      var next := Insert(data, Nickname, entries[0]);
      ReadNicks(next, entries[1..]);
      assert entries == [entries[0]] + entries[1..];
      assert next.nicks + Elements(entries[1..]) == data.nicks + Elements(entries);
    }
  }

  lemma {:induction false} ReadIps(data: Data, entries: seq<string>)
    requires AllWell(entries)
    ensures ReadLines(Reader(Ip, data), entries) == Reader(Ip, data.(ips := data.ips + Elements(entries)))
    decreases entries
  {
    if entries == [] {
      assert data.ips + Elements(entries) == data.ips;
    } else {
      Survives(entries[0]);
      var next := Insert(data, Ip, entries[0]);
      ReadIps(next, entries[1..]);
      assert entries == [entries[0]] + entries[1..];
      assert next.ips + Elements(entries[1..]) == data.ips + Elements(entries);
    }
  }

  lemma ReadKeyword(data: Data, e: string)
    requires WellFormed(e) && ToLower(e) == e
    ensures ReadLine(Reader(Keyword, data), e) == Reader(Keyword, data.(keywords := data.keywords + [e]))
  {
    Survives(e);
  }

  predicate Lowered(entries: seq<string>) {
    forall e :: e in entries ==> ToLower(e) == e
  }

  lemma {:induction false} ReadKeywords(data: Data, entries: seq<string>)
    requires AllWell(entries) && Lowered(entries)
    ensures ReadLines(Reader(Keyword, data), entries) == Reader(Keyword, data.(keywords := data.keywords + entries))
    decreases entries
  {
    if entries == [] {
      assert data.keywords + entries == data.keywords;
    } else {
      ReadKeyword(data, entries[0]);
      var next := data.(keywords := data.keywords + [entries[0]]);
      ReadKeywords(next, entries[1..]);
      MoveHead(data.keywords, entries);
    }
  }

  lemma TitleIsComment()
    ensures Classify(TITLE) == Skip && '\n' !in TITLE
  {
    CleanFacts(TITLE);
  }

  lemma UsageIsComment()
    ensures Classify(USAGE) == Skip && '\n' !in USAGE
  {
    var a, b := "# 用 [nick] / [ip] / [kw] 切换维度", "，每行一个条目，# 开头为注释";
    assert '\n' !in a && '\n' !in b;
    assert USAGE == a + b && USAGE[0] == a[0] && USAGE[|USAGE| - 1] == b[|b| - 1];
    CleanFacts(USAGE);
  }

  lemma TagsAreSections()
    ensures Classify("[nick]") == Section(Nickname)
    ensures Classify("[ip]") == Section(Ip)
    ensures Classify("[kw]") == Section(Keyword)
  {
    CleanFacts("[nick]");
    CleanFacts("[ip]");
    CleanFacts("[kw]");
  }

  // ---------- The whole file ----------

  lemma PrintedIsBreakless(nicks: seq<string>, ips: seq<string>, keywords: seq<string>)
    requires Breakless(nicks) && Breakless(ips) && Breakless(keywords)
    ensures Breakless(Printed(nicks, ips, keywords))
  {
    TitleIsComment();
    UsageIsComment();
  }

  lemma SkipHead(title: string, usage: string, rest: seq<string>)
    requires Classify(title) == Skip && Classify(usage) == Skip
    ensures ReadLines(Reader(NoReason, EMPTY), [title] + ([usage] + (["[nick]"] + rest)))
         == ReadLines(Reader(Nickname, EMPTY), rest)
  {
    TagsAreSections();
    ReadOne(Reader(NoReason, EMPTY), title, [usage] + (["[nick]"] + rest));
    ReadOne(Reader(NoReason, EMPTY), usage, ["[nick]"] + rest);
    ReadOne(Reader(NoReason, EMPTY), "[nick]", rest);
  }

  lemma HeadFirst(a: string, b: string, c: string, nicks: seq<string>, ip: seq<string>, ips: seq<string>,
                  kw: seq<string>, keywords: seq<string>)
    ensures [a, b, c] + nicks + ip + ips + kw + keywords
         == [a] + ([b] + ([c] + (nicks + (ip + (ips + (kw + keywords))))))
  {
    Regroup([a, b, c], nicks, ip, ips, kw, keywords);
    Associate([a, b, c], nicks, ip + (ips + (kw + keywords)));
    ThreeFirst(a, b, c, nicks + (ip + (ips + (kw + keywords))));
  }

  lemma ReadHeader(nicks: seq<string>, ips: seq<string>, keywords: seq<string>)
    ensures ReadLines(Reader(NoReason, EMPTY), Printed(nicks, ips, keywords))
         == ReadLines(Reader(Nickname, EMPTY), nicks + (["[ip]"] + (ips + (["[kw]"] + keywords))))
  {
    TitleIsComment();
    UsageIsComment();
    HeadFirst(TITLE, USAGE, "[nick]", nicks, ["[ip]"], ips, ["[kw]"], keywords);
    SkipHead(TITLE, USAGE, nicks + (["[ip]"] + (ips + (["[kw]"] + keywords))));
  }

  lemma ReadOne(r: Reader, line: string, rest: seq<string>)
    ensures ReadLines(r, [line] + rest) == ReadLines(ReadLine(r, line), rest)
  {
    assert ([line] + rest)[1..] == rest;
  }

  ghost predicate Well(data: Data) {
    && (forall e :: e in data.nicks || e in data.ips ==> WellFormed(e))
    && AllWell(data.keywords) && Lowered(data.keywords)
  }

  lemma ReadNickSection(data: Data, entries: seq<string>, rest: seq<string>)
    requires AllWell(entries)
    ensures ReadLines(Reader(Nickname, data), entries + (["[ip]"] + rest))
         == ReadLines(Reader(Ip, data.(nicks := data.nicks + Elements(entries))), rest)
  {
    ReadNicks(data, entries);
    ReadAppend(Reader(Nickname, data), entries, ["[ip]"] + rest);
    TagsAreSections();
    ReadOne(Reader(Nickname, data.(nicks := data.nicks + Elements(entries))), "[ip]", rest);
  }

  lemma ReadIpSection(data: Data, entries: seq<string>, rest: seq<string>)
    requires AllWell(entries)
    ensures ReadLines(Reader(Ip, data), entries + (["[kw]"] + rest))
         == ReadLines(Reader(Keyword, data.(ips := data.ips + Elements(entries))), rest)
  {
    ReadIps(data, entries);
    ReadAppend(Reader(Ip, data), entries, ["[kw]"] + rest);
    TagsAreSections();
    ReadOne(Reader(Ip, data.(ips := data.ips + Elements(entries))), "[kw]", rest);
  }

  lemma ReadPrinted(nicks: seq<string>, ips: seq<string>, keywords: seq<string>)
    requires AllWell(nicks) && AllWell(ips) && AllWell(keywords) && Lowered(keywords)
    ensures ReadLines(Reader(NoReason, EMPTY), Printed(nicks, ips, keywords)).data
         == Data(Elements(nicks), Elements(ips), keywords)
  {
    ReadHeader(nicks, ips, keywords);
    ReadNickSection(EMPTY, nicks, ips + (["[kw]"] + keywords));
    var a := EMPTY.(nicks := EMPTY.nicks + Elements(nicks));
    ReadIpSection(a, ips, keywords);
    ReadKeywords(a.(ips := a.ips + Elements(ips)), keywords);
    assert [] + keywords == keywords;
  }

  lemma LinesReadBack(lines: seq<string>)
    requires Breakless(lines)
    ensures Lines(Unlines(lines)) == lines
  {
    LinesOfUnlines(lines, "");
    assert Unlines(lines) + "" == Unlines(lines);
    assert lines + Lines("") == lines;
  }

  lemma PrintedLines(nicks: seq<string>, ips: seq<string>, keywords: seq<string>)
    requires AllWell(nicks) && AllWell(ips) && AllWell(keywords)
    ensures Lines(File(nicks, ips, keywords)) == Printed(nicks, ips, keywords)
  {
    var printed := Printed(nicks, ips, keywords);
    PrintedIsBreakless(nicks, ips, keywords);
    LinesReadBack(printed);
  }

  /** Printing well-formed rules and reading them back is the identity, in whatever order the sets are walked. */
  lemma FetchPersisted(data: Data, nicks: seq<string>, ips: seq<string>)
    requires Well(data) && Orders(nicks, data.nicks) && Orders(ips, data.ips)
    ensures Fetch(File(nicks, ips, data.keywords)) == data
  {
    PrintedLines(nicks, ips, data.keywords);
    ReadPrinted(nicks, ips, data.keywords);
    assert Elements(nicks) == data.nicks && Elements(ips) == data.ips;
  }

  // ---------- What cannot be read back ----------

  /** The lines from which an entry was read. */
  predicate ReadFrom(lines: seq<string>, e: string) {
    exists l :: l in lines && Classify(l) == Entry(e)
  }

  /** What one line can add to the rules. */
  lemma OneLineAdds(r: Reader, l: string, x: string)
    ensures var d := ReadLine(r, l).data;
      && (x in d.nicks ==> x in r.data.nicks || Classify(l) == Entry(x))
      && (x in d.ips ==> x in r.data.ips || Classify(l) == Entry(x))
      && (x in d.keywords ==> x in r.data.keywords || (Classify(l).Entry? && ToLower(Classify(l).text) == x))
  {
  }

  ghost predicate KeywordFrom(lines: seq<string>, x: string) {
    exists e :: ReadFrom(lines, e) && ToLower(e) == x
  }

  lemma {:induction false} FetchedFromLines(r: Reader, lines: seq<string>, x: string)
    ensures x in ReadLines(r, lines).data.nicks ==> x in r.data.nicks || ReadFrom(lines, x)
    ensures x in ReadLines(r, lines).data.ips ==> x in r.data.ips || ReadFrom(lines, x)
    ensures x in ReadLines(r, lines).data.keywords ==> x in r.data.keywords || KeywordFrom(lines, x)
    decreases lines
  {
    if lines != [] {
      OneLineAdds(r, lines[0], x);
      FetchedFromLines(ReadLine(r, lines[0]), lines[1..], x);
      FetchedFromRest(lines, x);
      if Classify(lines[0]).Entry? { assert ReadFrom(lines, Classify(lines[0]).text); }
    }
  }

  lemma FetchedFromRest(lines: seq<string>, x: string)
    requires lines != []
    ensures ReadFrom(lines[1..], x) ==> ReadFrom(lines, x)
    ensures KeywordFrom(lines[1..], x) ==> KeywordFrom(lines, x)
  {
    forall e | ReadFrom(lines[1..], e) ensures ReadFrom(lines, e) {
      var l :| l in lines[1..] && Classify(l) == Entry(e);
      assert l in lines;
    }
  }

  /** An entry that was read is well formed, except that it may still end in a carriage return. */
  lemma ReadEntryForm(l: string, e: string)
    requires '\n' !in l && Classify(l) == Entry(e)
    ensures '\n' !in e && (WellFormed(e) || e[|e| - 1] == '\r')
  {
    CleanFacts(l);
  }

  predicate Harmless(l: string) {
    '\n' !in l && (WellFormed(l) || !Classify(l).Entry?)
  }

  ghost predicate HarmlessBut(lines: seq<string>, x: string) {
    forall p :: p in lines ==> p == x || Harmless(p)
  }

  lemma CrIsCut(l: string)
    requires l != "" && l[|l| - 1] == '\r'
    ensures |Clean(l)| < |l|
  {
    TrimFacts(StripCr(l));
  }

  /** A line that reads as an ill-formed entry, in any case, is neither that entry nor well formed. */
  lemma ReadAsIllFormed(l: string, e: string, x: string)
    requires '\n' !in l && Classify(l) == Entry(e) && ToLower(e) == ToLower(x) && !WellFormed(x)
    ensures '\n' !in x && l != x && !WellFormed(l)
  {
    LowerKeepsForm(e);
    LowerKeepsForm(x);
    ReadEntryForm(l, e);
    SameBreaks(e, x);
    if l == x { CrIsCut(l); }
    if WellFormed(l) { Survives(l); }
  }

  /** An ill-formed entry is never read from a file whose other lines are harmless, not even in another case. */
  lemma IllFormedIsNeverRead(lines: seq<string>, x: string, l: string, e: string)
    requires HarmlessBut(lines, x)
    requires !WellFormed(x) && l in Lines(Unlines(lines)) && Classify(l) == Entry(e)
    ensures ToLower(e) != ToLower(x)
  {
    if ToLower(e) == ToLower(x) {
      LinesHaveNoBreak(Unlines(lines), l);
      ReadAsIllFormed(l, e, x);
      LinesReadBack(lines);
      assert false;
    }
  }

  lemma SameBreaks(e: string, x: string)
    requires ToLower(e) == ToLower(x) && '\n' !in e
    ensures |e| == |x| && '\n' !in x
    ensures e != "" ==> (e[|e| - 1] == '\r' <==> x[|x| - 1] == '\r')
  {
    assert |ToLower(e)| == |e| && |ToLower(x)| == |x|;
    assert forall i :: 0 <= i < |x| ==> Lower(x[i]) == ToLower(e)[i] == Lower(e[i]);
  }

  lemma TagsAreHarmless()
    ensures Harmless(TITLE) && Harmless(USAGE) && Harmless("[nick]") && Harmless("[ip]") && Harmless("[kw]")
  {
    TitleIsComment();
    UsageIsComment();
    TagsAreSections();
  }

  lemma NeverReadFrom(lines: seq<string>, x: string, e: string)
    requires HarmlessBut(lines, x) && !WellFormed(x) && ReadFrom(Lines(Unlines(lines)), e)
    ensures ToLower(e) != ToLower(x)
  {
    var l :| l in Lines(Unlines(lines)) && Classify(l) == Entry(e);
    IllFormedIsNeverRead(lines, x, l, e);
  }

  lemma HarmlessJoin(a: seq<string>, tag: string, b: seq<string>, x: string)
    requires HarmlessBut(a, x) && Harmless(tag) && HarmlessBut(b, x)
    ensures HarmlessBut(a + [tag] + b, x)
  {
  }

  lemma HarmlessHead(a: string, b: string, c: string, rest: seq<string>, x: string)
    requires Harmless(a) && Harmless(b) && Harmless(c) && HarmlessBut(rest, x)
    ensures HarmlessBut([a, b, c] + rest, x)
  {
  }

  lemma PrintedIsHarmless(nicks: seq<string>, ips: seq<string>, keywords: seq<string>, x: string)
    requires forall e :: e in nicks || e in ips || e in keywords ==> e == x || WellFormed(e)
    ensures HarmlessBut(Printed(nicks, ips, keywords), x)
  {
    TagsAreHarmless();
    HarmlessHead(TITLE, USAGE, "[nick]", nicks, x);
    HarmlessJoin([TITLE, USAGE, "[nick]"] + nicks, "[ip]", ips, x);
    HarmlessJoin([TITLE, USAGE, "[nick]"] + nicks + ["[ip]"] + ips, "[kw]", keywords, x);
  }

  /** A file that prints well-formed rules and one more, ill-formed entry x never gives x back. */
  lemma IllFormedIsLost(nicks: seq<string>, ips: seq<string>, keywords: seq<string>, x: string)
    requires forall e :: e in nicks || e in ips || e in keywords ==> e == x || WellFormed(e)
    requires !WellFormed(x)
    ensures var d := Fetch(File(nicks, ips, keywords));
      x !in d.nicks && x !in d.ips && (ToLower(x) == x ==> x !in d.keywords)
  {
    var printed := Printed(nicks, ips, keywords);
    var lines := Lines(Unlines(printed));
    PrintedIsHarmless(nicks, ips, keywords, x);
    FetchedFromLines(Reader(NoReason, EMPTY), lines, x);
    forall e | ReadFrom(lines, e) ensures ToLower(e) != ToLower(x) { NeverReadFrom(printed, x, e); }
  }

  // ---------- Main results ----------

  /** The rules in memory are well formed and are what the file says. */
  ghost predicate Synced(m: Manager) {
    Well(m.data) && Fetch(m.file) == m.data
  }

  /** A nickname or an address added at run time is still blocked after a reload exactly when the file could be
      written and the entry is well formed. */
  lemma NicknameSurvivesIff(m: Manager, nick: string, w: Writing)
    requires Synced(m) && nick != "" && nick !in m.data.nicks && Enabled(m, Batch([nick], [], w))
    ensures nick in Reload(AddBatch(m, [nick], [], w)).data.nicks <==> w.Some? && WellFormed(nick)
  {
    var data := Added(m.data, [nick], []);
    assert NonEmpty([nick]) == {nick} && NonEmpty([]) == {};
    assert data == m.data.(nicks := m.data.nicks + {nick});
    assert nick in data.nicks;
    SurvivesIff(m, data, nick, w);
  }

  lemma IpSurvivesIff(m: Manager, ip: string, w: Writing)
    requires Synced(m) && ip != "" && ip !in m.data.ips && Enabled(m, Batch([], [ip], w))
    ensures ip in Reload(AddBatch(m, [], [ip], w)).data.ips <==> w.Some? && WellFormed(ip)
  {
    var data := Added(m.data, [], [ip]);
    assert NonEmpty([ip]) == {ip} && NonEmpty([]) == {};
    assert data == m.data.(ips := m.data.ips + {ip});
    assert ip in data.ips;
    SurvivesIff(m, data, ip, w);
  }

  /** The common argument: data is the synced data with one new entry x. */
  lemma SurvivesIff(m: Manager, data: Data, x: string, w: Writing)
    requires Synced(m) && Possible(data, w)
    requires || data == m.data.(nicks := m.data.nicks + {x})
             || data == m.data.(ips := m.data.ips + {x})
             || (data == m.data.(keywords := m.data.keywords + [x]) && ToLower(x) == x)
    ensures w.None? ==> Fetch(Persist(m.(data := data), w).file) == m.data
    ensures w.Some? && WellFormed(x) ==> Fetch(Persist(m.(data := data), w).file) == data
    ensures w.Some? && !WellFormed(x) ==>
      var d := Fetch(Persist(m.(data := data), w).file);
      x !in d.nicks && x !in d.ips && (ToLower(x) == x ==> x !in d.keywords)
  {
    if w.Some? {
      var (nicks, ips) := w.value;
      if WellFormed(x) {
        FetchPersisted(data, nicks, ips);
      } else {
        IllFormedIsLost(nicks, ips, data.keywords, x);
      }
    }
  }

  lemma KeywordSurvivesIff(m: Manager, keyword: string, w: Writing)
    requires Synced(m) && keyword != "" && ToLower(keyword) !in m.data.keywords && Enabled(m, Key(keyword, w))
    ensures ToLower(keyword) in Reload(AddKeyword(m, keyword, w)).data.keywords <==> w.Some? && WellFormed(keyword)
  {
    var k := ToLower(keyword);
    var data := WithKeyword(m.data, keyword);
    assert data.keywords == m.data.keywords + [k] && k in data.keywords;
    LowerKeepsForm(keyword);
    SurvivesIff(m, data, k, w);
  }

  /** A step that adds well-formed entries only and, when it changes the rules, manages to write the file. */
  ghost predicate Good(m: Manager, step: Step) {
    match step
    case Batch(nicks, ips, w) =>
      && (forall e :: e in nicks || e in ips ==> e == "" || WellFormed(e))
      && (Added(m.data, nicks, ips) != m.data ==> w.Some?)
    case Key(keyword, w) =>
      (keyword == "" || WellFormed(keyword)) && (WithKeyword(m.data, keyword) != m.data ==> w.Some?)
  }

  lemma StepStaysSynced(m: Manager, step: Step)
    requires Synced(m) && Enabled(m, step) && Good(m, step)
    ensures Synced(Next(m, step))
  {
    match step
    case Batch(nicks, ips, w) =>
      var data := Added(m.data, nicks, ips);
      if data != m.data { FetchPersisted(data, w.value.0, w.value.1); }
    case Key(keyword, w) =>
      var data := WithKeyword(m.data, keyword);
      if data != m.data {
        LowerKeepsForm(keyword);
        FetchPersisted(data, w.value.0, w.value.1);
      }
  }

  lemma NewTitleIsComment()
    ensures Classify(NEW_TITLE) == Skip && '\n' !in NEW_TITLE
  {
    CleanFacts(NEW_TITLE);
  }

  lemma TemplateReads(title: string, usage: string, tags: seq<string>)
    requires Classify(title) == Skip && Classify(usage) == Skip && Breakless([title, usage] + tags)
    ensures Fetch(Unlines([title, usage] + tags)) == ReadLines(Reader(NoReason, EMPTY), tags).data
  {
    var lines := [title, usage] + tags;
    LinesOfUnlines(lines, "");
    assert Unlines(lines) + "" == Unlines(lines) && lines + Lines("") == lines;
    assert lines == [title] + ([usage] + tags);
    ReadOne(Reader(NoReason, EMPTY), title, [usage] + tags);
    ReadOne(Reader(NoReason, EMPTY), usage, tags);
  }

  /** A file that Initialize has just created is empty of rules, so the manager starts in step with it. */
  lemma TemplateIsEmpty()
    ensures Fetch(TEMPLATE) == EMPTY && Synced(Manager(EMPTY, TEMPLATE))
  {
    var tags := ["[nick]", "[ip]", "[kw]"];
    NewTitleIsComment();
    UsageIsComment();
    TemplateReads(NEW_TITLE, USAGE, tags);
    ReadTags();
    FiveLines(NEW_TITLE, USAGE, "[nick]", "[ip]", "[kw]");
  }

  lemma FiveLines(a: string, b: string, c: string, d: string, e: string)
    ensures [a, b] + [c, d, e] == [a, b, c, d, e]
  {
  }

  lemma ReadTags()
    ensures ReadLines(Reader(NoReason, EMPTY), ["[nick]", "[ip]", "[kw]"]).data == EMPTY
  {
    TagsAreSections();
    ReadOne(Reader(NoReason, EMPTY), "[nick]", ["[ip]", "[kw]"]);
    ReadOne(Reader(Nickname, EMPTY), "[ip]", ["[kw]"]);
    ReadOne(Reader(Ip, EMPTY), "[kw]", []);
  }

  /** A file from which no rule is read that ends in a carriage return. Only a doubled one gives such a rule. */
  ghost predicate NoCrRules(data: Data) {
    && (forall e :: e in data.nicks || e in data.ips ==> e != "" && e[|e| - 1] != '\r')
    && (forall e :: e in data.keywords ==> e != "" && e[|e| - 1] != '\r')
  }

  lemma FetchedIsWell(file: string, x: string)
    ensures var d := Fetch(file);
      && (x in d.nicks || x in d.ips || x in d.keywords ==> x != "" && (WellFormed(x) || x[|x| - 1] == '\r'))
      && (x in d.keywords ==> ToLower(x) == x)
  {
    var lines := Lines(file);
    FetchedFromLines(Reader(NoReason, EMPTY), lines, x);
    forall l, e | l in lines && Classify(l) == Entry(e)
      ensures e != "" && (WellFormed(e) || e[|e| - 1] == '\r')
    {
      LinesHaveNoBreak(file, l);
      ReadEntryForm(l, e);
    }
    forall e | ToLower(e) == x && ReadFrom(lines, e) && e != "" && (WellFormed(e) || e[|e| - 1] == '\r')
      ensures x != "" && (WellFormed(x) || x[|x| - 1] == '\r') && ToLower(x) == x
    {
      LowerKeepsForm(e);
    }
  }

  /** Which existing files the manager starts in step with. */
  lemma SyncedFileIff(file: string)
    ensures Synced(Manager(Fetch(file), file)) <==> NoCrRules(Fetch(file))
  {
    forall x ensures
      && (x in Fetch(file).nicks || x in Fetch(file).ips || x in Fetch(file).keywords ==>
            x != "" && (WellFormed(x) || x[|x| - 1] == '\r'))
      && (x in Fetch(file).keywords ==> ToLower(x) == x)
    {
      FetchedIsWell(file, x);
    }
  }

  predicate IsFirstHit(keywords: seq<string>, lower: string, i: nat) {
    i < |keywords| && Hit(keywords[i], lower) && forall j :: 0 <= j < i ==> !Hit(keywords[j], lower)
  }

  lemma FirstHitBehind(keywords: seq<string>, lower: string, i: nat)
    requires keywords != [] && !Hit(keywords[0], lower) && IsFirstHit(keywords[1..], lower, i)
    ensures IsFirstHit(keywords, lower, i + 1) && keywords[i + 1] == keywords[1..][i]
  {
    forall j | 0 <= j < i + 1 ensures !Hit(keywords[j], lower) {
      if j > 0 { assert keywords[j] == keywords[1..][j - 1]; }
    }
  }

  lemma {:induction false} FirstHitIsFirst(keywords: seq<string>, lower: string) returns (i: nat)
    ensures FirstHit(keywords, lower).None? ==> forall k :: k in keywords ==> !Hit(k, lower)
    ensures FirstHit(keywords, lower).Some? ==>
      IsFirstHit(keywords, lower, i) && FirstHit(keywords, lower) == Some(keywords[i])
  {
    i := 0;
    if keywords != [] && !Hit(keywords[0], lower) {
      i := FirstHitIsFirst(keywords[1..], lower);
      if FirstHit(keywords, lower).Some? { FirstHitBehind(keywords, lower, i); }
      i := i + 1;
    }
  }

  /** A keyword verdict names the first keyword of the list that hits. */
  lemma KeywordVerdict(data: Data, nick: string, ip: string, content: string)
    ensures var v := Check(data, nick, ip, content);
      v.reason == Keyword ==> exists i: nat ::
        IsFirstHit(data.keywords, ToLower(content), i) && v.detail == data.keywords[i]
  {
    var i := FirstHitIsFirst(data.keywords, ToLower(content));
  }

  /** Adding a keyword again, in any case, changes nothing, and no keyword is ever there twice. */
  lemma KeywordAddedOnce(data: Data, keyword: string, again: string)
    requires ToLower(again) == ToLower(keyword)
    ensures WithKeyword(WithKeyword(data, keyword), again) == WithKeyword(data, keyword)
    ensures (forall i, j :: 0 <= i < j < |data.keywords| ==> data.keywords[i] != data.keywords[j]) ==>
      var ks := WithKeyword(data, keyword).keywords; forall i, j :: 0 <= i < j < |ks| ==> ks[i] != ks[j]
  {
    assert |ToLower(again)| == |again| && |ToLower(keyword)| == |keyword|;
  }

  /** An empty keyword in the list blocks nothing. */
  lemma EmptyKeywordBlocksNothing(data: Data, nick: string, ip: string, content: string)
    ensures Check(data.(keywords := [""] + data.keywords), nick, ip, content) == Check(data, nick, ip, content)
  {
    ConsTail("", data.keywords);
  }

  /** Entries under a tag that names no section become no rule. */
  lemma {:induction false} UnknownSectionIsIgnored(r: Reader, tag: string, entries: seq<string>)
    requires Classify(tag) == Section(NoReason) && forall e :: e in entries ==> !Classify(e).Section?
    ensures ReadLines(r, [tag] + entries) == r.(cur := NoReason)
  {
    ReadOne(r, tag, entries);
    NoReasonReadsNothing(r.(cur := NoReason), entries);
  }

  lemma {:induction false} NoReasonReadsNothing(r: Reader, entries: seq<string>)
    requires r.cur == NoReason && forall e :: e in entries ==> !Classify(e).Section?
    ensures ReadLines(r, entries) == r
    decreases entries
  {
    if entries != [] {
      assert entries[0] in entries;
      NoReasonReadsNothing(ReadLine(r, entries[0]), entries[1..]);
    }
  }

  /** Which rule a verdict names when several hit: the nickname before the address before the first keyword. */
  lemma VerdictIff(data: Data, nick: string, ip: string, content: string)
    ensures var v := Check(data, nick, ip, content); var lower := ToLower(content);
      && (v == Verdict(Nickname, nick) <==> nick in data.nicks)
      && (v == Verdict(Ip, ip) <==> nick !in data.nicks && ip != "" && ip in data.ips)
      && (v.reason == Keyword <==>
            nick !in data.nicks && (ip == "" || ip !in data.ips) && exists k :: k in data.keywords && Hit(k, lower))
      && (v.reason == Keyword ==> exists i: nat :: IsFirstHit(data.keywords, lower, i) && v.detail == data.keywords[i])
      && (v.reason == NoReason ==> v.detail == "")
  {
    var i := FirstHitIsFirst(data.keywords, ToLower(content));
  }

  /** A comment passes exactly when no rule of any of the three kinds hits it. */
  lemma PassesIff(data: Data, nick: string, ip: string, content: string)
    ensures Check(data, nick, ip, content).reason == NoReason <==>
      && nick !in data.nicks
      && (ip == "" || ip !in data.ips)
      && forall k :: k in data.keywords ==> !Hit(k, ToLower(content))
  {
    var i := FirstHitIsFirst(data.keywords, ToLower(content));
  }

  /** An added keyword blocks every comment that contains it in any mixture of cases. */
  lemma AddedKeywordBlocks(data: Data, keyword: string, nick: string, ip: string, content: string, at: nat)
    requires keyword != "" && at + |keyword| <= |content|
    requires forall i :: 0 <= i < |keyword| ==> Lower(content[at + i]) == Lower(keyword[i])
    ensures Check(WithKeyword(data, keyword), nick, ip, content).reason != NoReason
  {
    var d := WithKeyword(data, keyword);
    PassesIff(d, nick, ip, content);
    var lower := ToLower(content);
    assert lower[at..at + |keyword|] == ToLower(keyword);
    assert FoundAt(lower, ToLower(keyword), at);
    assert Hit(ToLower(keyword), lower);
    assert ToLower(keyword) in d.keywords;
  }
}

module BlacklistCode {
  import opened Prelude
  import opened BlacklistSpec

  class BlacklistManager {
    var nickBlacklist: set<string>
    var ipBlacklist: set<string>
    var keywordBlacklist: seq<string>
    var source: string  // what the configuration file holds

    ghost function View(): Manager
      reads this
    {
      Manager(Data(nickBlacklist, ipBlacklist, keywordBlacklist), source)
    }

    /** The static members before Initialize. */
    constructor ()
      ensures View() == Manager(EMPTY, "")
    {
      nickBlacklist, ipBlacklist, keywordBlacklist := {}, {}, [];
      source := "";
    }

    /** present says that the file is there, with this content; otherwise it is created from the template if the
        directory allows it, and initialization fails if not. */
    method Initialize(present: bool, content: string, creatable: bool) returns (ok: bool)
      modifies this
      ensures ok <==> present || creatable
      ensures var file := if present then content else TEMPLATE;
        View() == if ok then Manager(Fetch(file), file) else old(View())
    {
      if !present {
        if !creatable {
          return false;
        }
        source := TEMPLATE;
      } else {
        source := content;
      }
      Reload(true);
      ok := true;
    }

    /** getline: the line up to the next break, and where reading goes on. */
    method GetLine(file: string, pos: nat) returns (line: string, next: nat)
      requires pos < |file|
      ensures pos < next <= |file|
      ensures Lines(file[pos..]) == [line] + Lines(file[next..])
    {
      var end := pos;
      while end < |file| && file[end] != '\n'
        invariant pos <= end <= |file|
        invariant LineEnd(file[pos..]) == (end - pos) + LineEnd(file[end..])
      {
        LineEndStep(file, end);
        end := end + 1;
      }
      line := file[pos..end];
      next := if end < |file| then end + 1 else end;
      LineAt(file, pos, end, next);
    }

    static lemma LineEndStep(file: string, end: nat)
      requires end < |file| && file[end] != '\n'
      ensures LineEnd(file[end..]) == 1 + LineEnd(file[end + 1..])
    {
      assert file[end..][1..] == file[end + 1..];
    }

    static lemma LineAt(file: string, pos: nat, end: nat, next: nat)
      requires pos <= end <= |file| && pos < |file| && LineEnd(file[pos..]) == end - pos
      requires next == if end < |file| then end + 1 else end
      ensures Lines(file[pos..]) == [file[pos..end]] + Lines(file[next..])
    {
      var s := file[pos..];
      assert s[..end - pos] == file[pos..end];
      if end < |file| {
        assert s[end - pos + 1..] == file[next..];
      } else {
        assert file[next..] == "";
      }
    }

    /** What the loop does with one line. */
    method Accept(section: Reason, rules: Data, text: string) returns (cur: Reason, data: Data)
      ensures Reader(cur, data) == ReadLine(Reader(section, rules), text)
    {
      cur, data := section, rules;
      var raw := text;
      if raw != "" && raw[|raw| - 1] == '\r' {
        raw := raw[..|raw| - 1];
      }
      var line := Trim(raw);
      if line == "" || line[0] == '#' {
        return;
      }
      if line[0] == '[' && line[|line| - 1] == ']' {
        cur := Tag(line);
        return;
      }
      match cur {
        case Nickname => data := data.(nicks := data.nicks + {line});
        case Ip => data := data.(ips := data.ips + {line});
        case Keyword => data := data.(keywords := data.keywords + [ToLower(line)]);
        case NoReason =>
      }
    }

    method FetchLatestBlackList(readable: bool) returns (data: Data)
      ensures data == if readable then Fetch(source) else EMPTY
    {
      data := EMPTY;
      if !readable {
        return;
      }
      var cur := NoReason;
      var pos := 0;
      assert source[0..] == source;
      while pos < |source|
        invariant pos <= |source|
        invariant ReadLines(Reader(cur, data), Lines(source[pos..])).data == Fetch(source)
      {
        ghost var rest := Lines(source[pos..]);
        var raw, next := GetLine(source, pos);
        assert rest[0] == raw && rest[1..] == Lines(source[next..]);
        pos := next;
        cur, data := Accept(cur, data, raw);
      }
      assert source[pos..] == "";
    }

    /** Reload when nothing comes between the two: the file is read without the lock, the rules are swapped under it. */
    method Reload(readable: bool)
      modifies this`nickBlacklist, this`ipBlacklist, this`keywordBlacklist
      ensures View() == if readable then BlacklistSpec.Reload(old(View())) else old(View()).(data := EMPTY)
    {
      var latest := FetchLatestBlackList(readable);
      Swap(latest);
    }

    /** The locked part of Reload, on whatever was read before. */
    method Swap(latest: Data)
      modifies this`nickBlacklist, this`ipBlacklist, this`keywordBlacklist
      ensures View() == old(View()).(data := latest)
    {
      nickBlacklist, ipBlacklist, keywordBlacklist := latest.nicks, latest.ips, latest.keywords;
    }

    /** Walks a set in some order and prints one entry a line. */
    method PrintSet(entries: set<string>, head: string) returns (out: string, ghost order: seq<string>)
      ensures Orders(order, entries) && out == head + Unlines(order)
    {
      out := head;
      order := [];
      var rest := entries;
      while rest != {}
        invariant rest <= entries
        invariant Orders(order, entries - rest)
        invariant out == head + Unlines(order)
        decreases rest
      {
        var e :| e in rest;
        PrintOne(head, order, e);
        OrdersSnoc(order, entries - rest, e);
        assert entries - (rest - {e}) == (entries - rest) + {e};
        order := order + [e];
        out := out + e + "\n";
        rest := rest - {e};
      }
      assert entries - rest == entries;
    }

    static lemma OrdersSnoc(order: seq<string>, s: set<string>, e: string)
      requires Orders(order, s) && e !in s
      ensures Orders(order + [e], s + {e})
    {
    }

    static lemma PrintOne(head: string, order: seq<string>, e: string)
      ensures head + Unlines(order) + e + "\n" == head + Unlines(order + [e])
    {
      UnlinesSnoc(order, e);
    }

    static lemma {:induction false} UnlinesSnoc(lines: seq<string>, line: string)
      ensures Unlines(lines + [line]) == Unlines(lines) + line + "\n"
    {
      if lines == [] {
        assert Unlines([line]) == line + "\n" + Unlines([]);
      } else {
        assert (lines + [line])[1..] == lines[1..] + [line];
        UnlinesSnoc(lines[1..], line);
      }
    }

    static lemma {:induction false} UnlinesAppend(a: seq<string>, b: seq<string>)
      ensures Unlines(a + b) == Unlines(a) + Unlines(b)
    {
      if a == [] {
        assert a + b == b;
      } else {
        assert (a + b)[1..] == a[1..] + b;
        UnlinesAppend(a[1..], b);
      }
    }

    static lemma FileParts(nicks: seq<string>, ips: seq<string>, keywords: seq<string>)
      ensures File(nicks, ips, keywords)
           == Unlines([TITLE, USAGE, "[nick]"]) + Unlines(nicks) + "[ip]\n" + Unlines(ips) + "[kw]\n" + Unlines(keywords)
    {
      var head := [TITLE, USAGE, "[nick]"];
      UnlinesAppend(head + nicks + ["[ip]"] + ips + ["[kw]"], keywords);
      UnlinesSnoc(head + nicks + ["[ip]"] + ips, "[kw]");
      UnlinesAppend(head + nicks + ["[ip]"], ips);
      UnlinesSnoc(head + nicks, "[ip]");
      UnlinesAppend(head, nicks);
    }

    method PersistToFile(writable: bool) returns (ghost w: Writing)
      modifies this`source
      ensures Possible(View().data, w) && (w.Some? <==> writable)
      ensures View() == Persist(old(View()), w)
    {
      if !writable {
        return None;
      }
      ghost var nicks, ips;
      var out := Unlines([TITLE, USAGE, "[nick]"]);
      out, nicks := PrintSet(nickBlacklist, out);
      out, ips := PrintSet(ipBlacklist, out + "[ip]\n");
      out := out + "[kw]\n";
      ghost var head := out;
      for i := 0 to |keywordBlacklist|
        invariant out == head + Unlines(keywordBlacklist[..i])
      {
        UnlinesSnoc(keywordBlacklist[..i], keywordBlacklist[i]);
        assert keywordBlacklist[..i + 1] == keywordBlacklist[..i] + [keywordBlacklist[i]];
        out := out + keywordBlacklist[i] + "\n";
      }
      assert keywordBlacklist[..|keywordBlacklist|] == keywordBlacklist;
      FileParts(nicks, ips, keywordBlacklist);
      source := out;
      w := Some((nicks, ips));
    }

    method AddKeyword(keyword: string, writable: bool) returns (ghost w: Writing)
      modifies this`keywordBlacklist, this`source
      ensures Possible(View().data, w) && (w.Some? ==> writable)
      ensures View().data != old(View().data) && writable ==> w.Some?
      ensures View() == BlacklistSpec.AddKeyword(old(View()), keyword, w)
    {
      w := None;
      if keyword == "" {
        return;
      }
      var kw := ToLower(keyword);
      if kw !in keywordBlacklist {
        keywordBlacklist := keywordBlacklist + [kw];
        w := PersistToFile(writable);
      }
    }

    /** Inserts the non-empty entries and counts the new ones. */
    method InsertAll(entries: seq<string>, into: set<string>) returns (result: set<string>, added: nat)
      ensures result == into + NonEmpty(entries)
      ensures added == |result| - |into|
    {
      result, added := into, 0;
      for i := 0 to |entries|
        invariant result == into + NonEmpty(entries[..i])
        invariant added == |result| - |into|
      {
        assert entries[..i + 1] == entries[..i] + [entries[i]];
        if entries[i] != "" && entries[i] !in result {
          result := result + {entries[i]};
          added := added + 1;
        }
      }
      assert entries[..|entries|] == entries;
    }

    method AddBatch(nicknames: seq<string>, ips: seq<string>, writable: bool) returns (added: nat, ghost w: Writing)
      modifies this`nickBlacklist, this`ipBlacklist, this`source
      ensures Possible(View().data, w) && (w.Some? ==> writable)
      ensures View().data != old(View().data) && writable ==> w.Some?
      ensures View() == BlacklistSpec.AddBatch(old(View()), nicknames, ips, w)
      ensures added == |View().data.nicks| + |View().data.ips| - |old(View()).data.nicks| - |old(View()).data.ips|
    {
      w := None;
      var n, m;
      ghost var nicks0, ips0 := nickBlacklist, ipBlacklist;
      nickBlacklist, n := InsertAll(nicknames, nickBlacklist);
      ipBlacklist, m := InsertAll(ips, ipBlacklist);
      added := n + m;
      Unchanged(nicks0, nickBlacklist);
      Unchanged(ips0, ipBlacklist);
      if added > 0 {
        w := PersistToFile(writable);
      }
    }

    static lemma Unchanged(a: set<string>, b: set<string>)
      requires a <= b
      ensures |a| <= |b| && (|a| == |b| <==> a == b)
    {
      assert b == a + (b - a);
      assert |b| == |a| + |b - a|;
    }

    /** std::string::find, as far as the caller asks: whether the part occurs. */
    method Find(s: string, part: string) returns (found: bool)
      ensures found <==> Contains(s, part)
    {
      var i := 0;
      while i + |part| <= |s|
        invariant i <= |s| + 1
        invariant forall k: nat :: k < i ==> !FoundAt(s, part, k)
        decreases |s| - i
      {
        if s[i..i + |part|] == part {
          assert FoundAt(s, part, i);
          return true;
        }
        i := i + 1;
      }
      assert forall k: nat :: FoundAt(s, part, k) ==> k < i;
      found := false;
    }

    method CheckComment(nickname: string, ip: string, content: string) returns (v: Verdict)
      ensures v == Check(View().data, nickname, ip, content)
    {
      if nickname in nickBlacklist {
        return Verdict(Nickname, nickname);
      }
      if ip != "" && ip in ipBlacklist {
        return Verdict(Ip, ip);
      }
      if keywordBlacklist != [] {
        var lower := ToLower(content);
        assert keywordBlacklist[0..] == keywordBlacklist;
        for i := 0 to |keywordBlacklist|
          invariant FirstHit(keywordBlacklist, lower) == FirstHit(keywordBlacklist[i..], lower)
        {
          var kw := keywordBlacklist[i];
          assert keywordBlacklist[i..][1..] == keywordBlacklist[i + 1..];
          if kw != "" {
            var found := Find(lower, kw);
            if found {
              return Verdict(Keyword, kw);
            }
          }
        }
      }
      v := Verdict(NoReason, "");
    }
  }
}
