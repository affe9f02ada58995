/**
 The write-ahead journal as the characters of its file: one intent line, then appended marker lines,
 each append possibly cut short. Records are JSON objects; the model keeps of JSON what decides
 whether a cut or merged line can still be read.
 */
module JournalText {
  import opened Prelude
  import opened SwitchTable

  // ----- Records -----

  datatype Client = Codex | Claude | UnknownClient(name: string)

  /** A receipt body prepared before it is written out. `payload` identifies the body, `sha` the digest
      registered for it; the digest is injective, so the two agree exactly when they are equal. */
  datatype Receipt = Receipt(client: Client, path: Path, sha: nat, payload: nat)

  /** `entries` are the three groups of the intent in switching order: roots, preparers, documents. */
  datatype Intent = Intent(clients: seq<Client>, receiptPaths: map<Client, Path>,
                           controlRoot: Path, dataRoot: Path, docRoot: Path, transactionRoot: Option<Path>,
                           entries: seq<Entry>)

  /** The digest written beside an intent or a marker. */
  datatype IntentSha = ShaOf(intent: Intent) | ForeignSha(id: nat)

  datatype Mark = SwitchBegin | SwitchDone | Verified | ReceiptsPrepared | RollbackBegin | RollbackDone

  datatype Record =
    | IntentRecord(intent: Intent, sha: IntentSha)
    | MarkerRecord(mark: Mark, sha: IntentSha, receipts: Option<seq<Receipt>>)
    | OtherRecord(id: nat)

  // ----- Validation -----

  predicate ChildOf(path: Path, dir: Path) {
    |path| == |dir| + 1 && dir <= path
  }

  predicate Within(path: Path, dir: Path) {
    ".." !in path && dir <= path
  }

  function Rank(group: Group): nat {
    match group
    case Root => 0
    case Preparer => 1
    case Document => 2
  }

  /** The groups follow each other, and a name occurs once in its group. */
  predicate WellGrouped(entries: seq<Entry>) {
    forall i, j :: 0 <= i < j < |entries| ==>
      && Rank(entries[i].group) <= Rank(entries[j].group)
      && (entries[i].group, entries[i].name) != (entries[j].group, entries[j].name)
  }

  predicate InControl(intent: Intent, e: Entry) {
    ChildOf(e.candidate, intent.controlRoot) && ChildOf(e.backup, intent.controlRoot)
        && Within(e.production, intent.dataRoot)
  }

  predicate InDocuments(intent: Intent, e: Entry) {
    && intent.transactionRoot.Some?
    && Within(e.production, intent.docRoot)
    && Within(e.candidate, intent.transactionRoot.value)
    && Within(e.backup, intent.transactionRoot.value)
  }

  predicate PartAt(name: string, i: int, part: string) {
    0 <= i && i + |part| <= |name| && name[i..i + |part|] == part
  }

  /** The file-name patterns of `DEPLOY_RECEIPT_GLOBS`: `codex-*-supervisor-enable-*.json` and
      `claude-managed-deploy-*.json`. */
  predicate ReceiptName(client: Client, name: string) {
    match client
    case Codex =>
      && "codex-" <= name
      && (exists i :: 6 <= i <= |name| - 24 && PartAt(name, i, "-supervisor-enable-"))
      && name[|name| - 5..] == ".json"
    case Claude => "claude-managed-deploy-" <= name && |name| >= 27 && name[|name| - 5..] == ".json"
    case UnknownClient(_) => false
  }

  /** `_validate_intent`. */
  predicate ValidIntent(intent: Intent) {
    && intent.clients != []
    && (forall c <- intent.clients :: c in {Codex, Claude})
    && (forall i, j :: 0 <= i < j < |intent.clients| ==> intent.clients[i] != intent.clients[j])
    && ".." !in intent.controlRoot && ".." !in intent.dataRoot && ".." !in intent.docRoot
    && intent.receiptPaths.Keys == (set c <- intent.clients)
    && (forall c <- intent.receiptPaths ::
          && ChildOf(intent.receiptPaths[c], intent.controlRoot)
          && ReceiptName(c, intent.receiptPaths[c][|intent.controlRoot|]))
    && WellGrouped(intent.entries)
    && (forall e <- intent.entries ::
          && e.name != "" && (forall p <- e.Paths() :: ".." !in p)
          && (if e.group.Document? then InDocuments(intent, e) else InControl(intent, e)))
  }

  /** `_validate_prepared_receipts`. */
  predicate ValidReceipts(intent: Intent, receipts: seq<Receipt>) {
    && |receipts| == |intent.clients|
    && forall i :: 0 <= i < |receipts| ==>
         && receipts[i].client == intent.clients[i]
         && receipts[i].client in intent.receiptPaths
         && receipts[i].path == intent.receiptPaths[receipts[i].client]
         && receipts[i].sha == receipts[i].payload
  }

  /** Receipts of different clients never share a path: the file-name patterns differ in their first letters. */
  lemma DistinctPaths(intent: Intent, receipts: seq<Receipt>, i: nat, k: nat)
    requires ValidIntent(intent) && ValidReceipts(intent, receipts) && i < k < |receipts|
    ensures receipts[i].path != receipts[k].path
  {
    var a, b := receipts[i], receipts[k];
    assert a.client != b.client && a.client in intent.clients && b.client in intent.clients;
    assert a.client in intent.receiptPaths && b.client in intent.receiptPaths;
    var n := |intent.controlRoot|;
    assert ReceiptName(a.client, a.path[n]) && ReceiptName(b.client, b.path[n]);
    assert "codex-"[1] == 'o' && "claude-managed-deploy-"[1] == 'l';
  }

  // ----- The lexical shape of a JSON object -----

  /** `Out` and `After` carry how many brackets enclose the outermost one; `After` follows a closing quote. */
  datatype Scan = Start | Out(depth: nat) | After(depth: nat) | In(depth: nat) | Esc(depth: nat) | Done | Bad
  {
    predicate Open() { !Start? && !Done? }
  }

  predicate Blank(c: char) { c == ' ' || c == '\t' || c == '\r' }

  predicate Letter(c: char) { 'a' <= c <= 'z' }

  function Close(depth: nat): Scan { if depth == 0 then Done else Out(depth - 1) }

  function NextScan(s: Scan, c: char): Scan {
    match s
    case Start => if c == '{' then Out(0) else Bad
    case Out(d) =>
      if c == '{' || c == '[' then Out(d + 1)
      else if c == '}' || c == ']' then Close(d)
      else if c == '"' then In(d)
      else if c == '\\' then Bad
      else s
    case After(d) =>
      if Blank(c) then s
      else if c == ',' || c == ':' then Out(d)
      else if c == '}' || c == ']' then Close(d)
      else Bad
    case In(d) => if c == '"' then After(d) else if c == '\\' then Esc(d) else s
    case Esc(d) => In(d)
    case Done => if Blank(c) then Done else Bad
    case Bad => Bad
  }

  function ScanFrom(s: Scan, text: string): Scan {
    if text == "" then s else NextScan(ScanFrom(s, text[..|text| - 1]), text[|text| - 1])
  }

  datatype Parsed = NotJson | NotObject | JsonObject(record: Record)

  datatype Codec = Codec(render: Record -> string, parse: string -> Parsed)

  /** The text of a record as `canonical` writes it: an object whose first key starts with a letter. */
  predicate Rendered(text: string) {
    && |text| >= 4 && text[0] == '{' && text[1] == '"' && Letter(text[2]) && text[|text| - 1] == '}'
    && '\n' !in text && ScanFrom(Start, text) == Done
  }

  /** What is used of JSON: records round-trip, and text opening with a brace is read only if its
      brackets and quotes close. */
  ghost predicate Sound(codec: Codec) {
    && (forall r :: Rendered(codec.render(r)) && codec.parse(codec.render(r)) == JsonObject(r))
    && (forall t: string :: t != "" && t[0] == '{' && codec.parse(t) != NotJson ==> ScanFrom(Start, t) == Done)
  }

  lemma {:induction false} ScanAppend(s: Scan, a: string, b: string)
    ensures ScanFrom(s, a + b) == ScanFrom(ScanFrom(s, a), b)
  {
    if b == "" {
      assert a + b == a;
    } else {
      var n := |a + b| - 1;
      assert (a + b)[..n] == a + b[..|b| - 1];
      ScanAppend(s, a, b[..|b| - 1]);
    }
  }

  lemma {:induction false} BadStays(text: string)
    ensures ScanFrom(Bad, text) == Bad
  {
    if text != "" { BadStays(text[..|text| - 1]); }
  }

  /** Every proper non-empty prefix of a rendered record is still open. */
  lemma ProperPrefixOpen(text: string, n: nat)
    requires Rendered(text) && 0 < n < |text|
    ensures ScanFrom(Start, text[..n]).Open()
  {
    var s := ScanFrom(Start, text[..n]);
    NotBad(text, n);
    NotStart(text, n);
    if s.Done? {
      assert text == text[..n] + text[n..];
      ScanAppend(Start, text[..n], text[n..]);
      DoneThenBrace(text[n..]);
    }
  }

  lemma NotBad(text: string, n: nat)
    requires Rendered(text) && n <= |text|
    ensures !ScanFrom(Start, text[..n]).Bad?
  {
    assert text == text[..n] + text[n..];
    ScanAppend(Start, text[..n], text[n..]);
    BadStays(text[n..]);
  }

  lemma {:induction false} NotStart(text: string, n: nat)
    requires Rendered(text) && 0 < n <= |text|
    ensures !ScanFrom(Start, text[..n]).Start?
  {
    assert text[..n][..n - 1] == text[..n - 1];
    if n > 1 { NotStart(text, n - 1); }
  }

  lemma {:induction false} DoneThenBrace(rest: string)
    requires rest != "" && rest[|rest| - 1] == '}'
    ensures ScanFrom(Done, rest) == Bad
  {
    DoneOrBad(rest[..|rest| - 1]);
  }

  lemma {:induction false} DoneOrBad(text: string)
    ensures ScanFrom(Done, text) in {Done, Bad}
  {
    if text != "" { DoneOrBad(text[..|text| - 1]); }
  }

  /** `inner` is where a fresh scan of a record prefix stands, `s` where the same characters lead after an
      unfinished object that was cut outside a string at depth `d`. */
  predicate Nested(inner: Scan, s: Scan, d: nat) {
    match inner
    case Start => s == Out(d)
    case Out(k) => s == Out(k + d + 1)
    case After(k) => s == After(k + d + 1)
    case In(k) => s == In(k + d + 1)
    case Esc(k) => s == Esc(k + d + 1)
    case Done => s == Out(d)
    case Bad => true
  }

  lemma {:induction false} NestedScan(text: string, n: nat, d: nat)
    requires Rendered(text) && n <= |text|
    ensures Nested(ScanFrom(Start, text[..n]), ScanFrom(Out(d), text[..n]), d)
  {
    if n > 0 {
      assert text[..n][..n - 1] == text[..n - 1];
      NestedScan(text, n - 1, d);
      NotBad(text, n - 1);
      if n > 1 { ProperPrefixOpen(text, n - 1); }
    }
  }

  /** Nothing appended to an unfinished object closes it: neither a record nor a prefix of one. */
  lemma OpenStaysOpen(s: Scan, text: string, n: nat)
    requires s.Open() && Rendered(text) && n <= |text|
    ensures ScanFrom(s, text[..n]).Open()
  {
    match s
    case Out(d) =>
      NestedScan(text, n, d);
      NotBad(text, n);
    case Bad =>
      BadStays(text[..n]);
    case _ =>
      ThreeCharacters(s, text, n);
  }

  lemma ThreeCharacters(s: Scan, text: string, n: nat)
    requires (s.In? || s.Esc? || s.After?) && Rendered(text) && n <= |text|
    ensures ScanFrom(s, text[..n]).Open()
  {
    var m := if n < 3 then n else 3;
    var head := text[..m];
    assert n >= 1 ==> text[..1] == ['{'] && ScanFrom(s, text[..1]) == NextScan(ScanFrom(s, ""), '{');
    assert n >= 2 ==> text[..2][..1] == text[..1] && ScanFrom(s, text[..2]) == NextScan(ScanFrom(s, text[..1]), '"');
    assert n >= 3 ==> text[..3][..2] == text[..2];
    assert n >= 3 ==> ScanFrom(s, text[..3]) == NextScan(ScanFrom(s, text[..2]), text[2]);
    if n >= 3 {
      assert text[..n] == text[..3] + text[3..n];
      ScanAppend(s, text[..3], text[3..n]);
      BadStays(text[3..n]);
    }
  }

  // ----- A codec that is sound -----

  function Letters(n: nat): string {
    if n == 0 then "" else Letters(n - 1) + "a"
  }

  /** The object whose only key has `n + 1` letters. */
  function Unary(n: nat): string {
    "{\"" + Letters(n + 1) + "\"}"
  }

  lemma {:induction false} LettersAre(n: nat, s: Scan)
    requires s.In?
    ensures |Letters(n)| == n && (forall c <- Letters(n) :: c == 'a') && ScanFrom(s, Letters(n)) == s
  {
    if n > 0 {
      LettersAre(n - 1, s);
      assert Letters(n)[..n - 1] == Letters(n - 1);
    }
  }

  lemma UnaryRendered(n: nat)
    ensures Rendered(Unary(n)) && |Unary(n)| == n + 5
  {
    LettersAre(n + 1, In(0));
    var open, body, text := "{\"", Letters(n + 1), Unary(n);
    assert open[..1] == "{" && "{"[..0] == "";
    assert ScanFrom(Start, "{") == Out(0);
    assert ScanFrom(Start, open) == In(0);
    ScanAppend(Start, open, body);
    ScanAppend(Start, open + body, "\"}");
    assert "\"}"[..1] == "\"" && "\""[..0] == "";
    assert ScanFrom(In(0), "\"") == After(0);
    assert text[2] == body[0] && body[0] in body;
    forall c | c in text ensures c != '\n' {
      assert c in open || c in body || c in "\"}";
    }
  }

  ghost function Unread(number: Record -> nat, text: string): Parsed {
    if exists r :: Unary(number(r)) == text then
      var r :| Unary(number(r)) == text;
      JsonObject(r)
    else NotJson
  }

  /** Records can be numbered, so what is used of JSON can be met. */
  lemma SoundExists(number: Record -> nat) returns (codec: Codec)
    requires forall a, b :: number(a) == number(b) ==> a == b
    ensures Sound(codec)
  {
    codec := Codec(r => Unary(number(r)), text => Unread(number, text));
    forall r ensures Rendered(codec.render(r)) && codec.parse(codec.render(r)) == JsonObject(r) {
      UnaryRendered(number(r));
      var q :| Unary(number(q)) == Unary(number(r)) && Unread(number, Unary(number(r))) == JsonObject(q);
      UnaryRendered(number(q));
    }
    forall t: string | t != "" && t[0] == '{' && codec.parse(t) != NotJson ensures ScanFrom(Start, t) == Done {
      var r :| Unary(number(r)) == t;
      UnaryRendered(number(r));
    }
  }

  // ----- Reading a journal -----

  /** `bytes.split(b"\n")`. */
  function Split(text: string): (lines: seq<string>)
    ensures |lines| >= 1
  {
    if text == "" then [""]
    else
      var rest := Split(text[1..]);
      if text[0] == '\n' then [""] + rest else [[text[0]] + rest[0]] + rest[1..]
  }

  /** The first loop of `load`: `any` says a record was read before these lines. */
  function ReadLines(codec: Codec, lines: seq<string>, any: bool): Option<seq<Record>> {
    if lines == [] then Some([])
    else
      var last := |lines| == 1;
      if lines[0] == "" then (if last then Some([]) else None)
      else match codec.parse(lines[0])
        case NotJson => if last && any then Some([]) else None
        case NotObject => None
        case JsonObject(r) =>
          match ReadLines(codec, lines[1..], true)
          case None => None
          case Some(rest) => Some([r] + rest)
  }

  datatype Markers = Markers(marks: seq<Mark>, receipts: Option<seq<Receipt>>)

  /** The second loop of `load`. */
  function ReadMarkers(intent: Intent, records: seq<Record>, seen: Markers): Option<Markers> {
    if records == [] then Some(seen)
    else match records[0]
      case MarkerRecord(mark, sha, receipts) =>
        if sha != ShaOf(intent) then None
        else if mark != ReceiptsPrepared then
          ReadMarkers(intent, records[1..], Markers(seen.marks + [mark], seen.receipts))
        else if seen.receipts.Some? || receipts.None? || !ValidReceipts(intent, receipts.value) then None
        else ReadMarkers(intent, records[1..], Markers(seen.marks + [mark], receipts))
      case _ => None
  }

  datatype Loaded = Loaded(intent: Intent, markers: Markers) | Rejected

  function LoadRecords(records: seq<Record>): Loaded {
    if records == [] || !records[0].IntentRecord? then Rejected
    else
      var intent := records[0].intent;
      if !ValidIntent(intent) || records[0].sha != ShaOf(intent) then Rejected
      else match ReadMarkers(intent, records[1..], Markers([], None))
        case None => Rejected
        case Some(m) => Loaded(intent, m)
  }

  function Load(codec: Codec, text: string): Loaded {
    match ReadLines(codec, Split(text), false)
    case None => Rejected
    case Some(records) => LoadRecords(records)
  }

  function Join(lines: seq<string>): string {
    if lines == [] then "" else lines[0] + "\n" + Join(lines[1..])
  }

  predicate OneLine(text: string) { '\n' !in text }

  lemma {:induction false} SplitLine(line: string, rest: string)
    requires OneLine(line)
    ensures Split(line + "\n" + rest) == [line] + Split(rest)
  {
    var text := line + "\n" + rest;
    if line == "" {
      assert text[1..] == rest;
    } else {
      assert text[1..] == line[1..] + "\n" + rest;
      SplitLine(line[1..], rest);
      assert [line[0]] + line[1..] == line;
    }
  }

  lemma {:induction false} SplitTail(tail: string)
    requires OneLine(tail)
    ensures Split(tail) == [tail]
  {
    if tail != "" {
      SplitTail(tail[1..]);
      assert [tail[0]] + tail[1..] == tail;
    }
  }

  lemma {:induction false} SplitJoin(lines: seq<string>, tail: string)
    requires (forall l <- lines :: OneLine(l)) && OneLine(tail)
    ensures Split(Join(lines) + tail) == lines + [tail]
  {
    if lines == [] {
      assert Join(lines) + tail == tail;
      SplitTail(tail);
    } else {
      assert Join(lines) + tail == lines[0] + "\n" + (Join(lines[1..]) + tail);
      SplitLine(lines[0], Join(lines[1..]) + tail);
      SplitJoin(lines[1..], tail);
    }
  }

  lemma {:induction false} JoinAppend(lines: seq<string>, line: string)
    ensures Join(lines + [line]) == Join(lines) + line + "\n"
  {
    if lines == [] {
      assert [line][1..] == [];
    } else {
      assert (lines + [line])[1..] == lines[1..] + [line];
      JoinAppend(lines[1..], line);
    }
  }

  // ----- Histories of appends -----

  /** One append: the record and how many characters of its line reached the file. */
  datatype Write = Write(record: Record, count: nat)

  function Line(codec: Codec, r: Record): string {
    codec.render(r) + "\n"
  }

  function Written(codec: Codec, w: Write): string {
    var line := Line(codec, w.record);
    if w.count <= |line| then line[..w.count] else line
  }

  function FileText(codec: Codec, intent: Intent, writes: seq<Write>): string {
    if writes == [] then Line(codec, IntentRecord(intent, ShaOf(intent)))
    else FileText(codec, intent, writes[..|writes| - 1]) + Written(codec, writes[|writes| - 1])
  }

  datatype Amount = Nothing | Part | AllButNewline | Whole

  function AmountOf(codec: Codec, w: Write): Amount {
    var size := |codec.render(w.record)|;
    if w.count == 0 then Nothing
    else if w.count < size then Part
    else if w.count == size then AllButNewline
    else Whole
  }

  datatype Tail = Clean | Unterminated | Torn | Corrupt

  /** What a reader can recover from the file: the readable records after the intent, and how the file ends. */
  datatype Log = Log(records: seq<Record>, tail: Tail)

  function Grow(log: Log, r: Record, amount: Amount): Log
    requires log.tail.Unterminated? ==> log.records != []
  {
    if amount.Nothing? || log.tail.Corrupt? then log
    else match log.tail
      case Clean =>
        if amount.Part? then Log(log.records, Torn)
        else Log(log.records + [r], if amount.Whole? then Clean else Unterminated)
      case Unterminated =>
        if amount.Whole? then Log(log.records, Corrupt) else Log(log.records[..|log.records| - 1], Torn)
      case _ =>
        Log(log.records, if amount.Whole? then Corrupt else Torn)
  }

  function Fold(codec: Codec, writes: seq<Write>): (log: Log)
    ensures log.tail.Unterminated? ==> log.records != []
  {
    if writes == [] then Log([], Clean)
    else
      var w := writes[|writes| - 1];
      Grow(Fold(codec, writes[..|writes| - 1]), w.record, AmountOf(codec, w))
  }

  function LoadLog(intent: Intent, log: Log): Loaded {
    if log.tail.Corrupt? then Rejected else LoadRecords([IntentRecord(intent, ShaOf(intent))] + log.records)
  }

  function Renders(codec: Codec, records: seq<Record>): seq<string> {
    if records == [] then [] else [codec.render(records[0])] + Renders(codec, records[1..])
  }

  lemma {:induction false} RendersAppend(codec: Codec, records: seq<Record>, r: Record)
    ensures Renders(codec, records + [r]) == Renders(codec, records) + [codec.render(r)]
  {
    if records == [] {
      assert [r][1..] == [];
    } else {
      assert (records + [r])[1..] == records[1..] + [r];
      RendersAppend(codec, records[1..], r);
    }
  }

  /** A line that opens an object and does not close it: no JSON reader accepts it. */
  predicate Spoiled(line: string) {
    line != "" && line[0] == '{' && ScanFrom(Start, line).Open()
  }

  /** The file `Join(lines) + tail` reads as `log`. */
  ghost predicate Holds(codec: Codec, intent: Intent, log: Log, lines: seq<string>, tail: string) {
    var all := [IntentRecord(intent, ShaOf(intent))] + log.records;
    && (forall l <- lines :: OneLine(l)) && OneLine(tail)
    && match log.tail
       case Clean => lines == Renders(codec, all) && tail == ""
       case Unterminated =>
         log.records != [] && lines == Renders(codec, all[..|all| - 1]) && tail == codec.render(all[|all| - 1])
       case Torn => lines == Renders(codec, all) && Spoiled(tail)
       case Corrupt => exists i :: 1 <= i < |lines| && Spoiled(lines[i])
  }

  /** `Holds` as one fact. */
  ghost predicate ReadsAs(codec: Codec, intent: Intent, log: Log, lines: seq<string>, tail: string) {
    Holds(codec, intent, log, lines, tail) == true
  }

  lemma SpoiledGrows(codec: Codec, tail: string, r: Record, count: nat)
    requires Sound(codec) && (Spoiled(tail) || exists q :: tail == codec.render(q))
    requires 0 < count <= |codec.render(r)|
    ensures Spoiled(tail + codec.render(r)[..count])
  {
    var text := codec.render(r);
    ScanAppend(Start, tail, text[..count]);
    if Spoiled(tail) {
      OpenStaysOpen(ScanFrom(Start, tail), text, count);
    } else {
      assert text[..count] == "{" + text[1..count];
      ScanAppend(Done, "{", text[1..count]);
      assert ScanFrom(Done, "{") == NextScan(ScanFrom(Done, ""), '{');
      BadStays(text[1..count]);
    }
  }

  lemma HoldsStep(codec: Codec, intent: Intent, log: Log, lines: seq<string>, tail: string, w: Write)
    returns (lines': seq<string>, tail': string)
    requires Sound(codec) && ReadsAs(codec, intent, log, lines, tail)
    requires log.tail.Unterminated? ==> log.records != []
    ensures ReadsAs(codec, intent, Grow(log, w.record, AmountOf(codec, w)), lines', tail')
    ensures Join(lines') + tail' == Join(lines) + tail + Written(codec, w)
  {
    var text := codec.render(w.record);
    var amount := AmountOf(codec, w);
    WrittenText(codec, w);
    if amount.Nothing? {
      lines', tail' := lines, tail;
    } else if amount.Whole? {
      lines', tail' := lines + [tail + text], "";
      WholeText(lines, tail, text);
      WholeStep(codec, intent, log, lines, tail, w.record);
    } else {
      lines', tail' := lines, tail + text[..w.count];
      PartStep(codec, intent, log, lines, tail, w);
    }
  }

  lemma WrittenText(codec: Codec, w: Write)
    ensures var text := codec.render(w.record);
            Written(codec, w) == if AmountOf(codec, w).Whole? then text + "\n" else text[..w.count]
  {
  }

  lemma WholeText(lines: seq<string>, tail: string, text: string)
    ensures Join(lines + [tail + text]) + "" == Join(lines) + tail + (text + "\n")
  {
    JoinAppend(lines, tail + text);
  }

  lemma WholeStep(codec: Codec, intent: Intent, log: Log, lines: seq<string>, tail: string, r: Record)
    requires Sound(codec) && ReadsAs(codec, intent, log, lines, tail)
    requires log.tail.Unterminated? ==> log.records != []
    ensures ReadsAs(codec, intent, Grow(log, r, Whole), lines + [tail + codec.render(r)], "")
  {
    var text := codec.render(r);
    var all := [IntentRecord(intent, ShaOf(intent))] + log.records;
    var grown := lines + [tail + text];
    match log.tail
    case Clean =>
      RendersAppend(codec, all, r);
      assert all + [r] == [IntentRecord(intent, ShaOf(intent))] + (log.records + [r]);
      assert tail + text == text;
    case Corrupt =>
      var i :| 1 <= i < |lines| && Spoiled(lines[i]);
      assert grown[i] == lines[i];
    case _ =>
      assert |Renders(codec, all)| >= 1;
      RendersLength(codec, all[..|all| - 1]);
      SpoiledGrows(codec, tail, r, |text|);
      assert text[..|text|] == text;
      assert Spoiled(grown[|lines|]);
  }

  lemma RendersLength(codec: Codec, records: seq<Record>)
    ensures |Renders(codec, records)| == |records|
  {
  }

  lemma PartStep(codec: Codec, intent: Intent, log: Log, lines: seq<string>, tail: string, w: Write)
    requires Sound(codec) && ReadsAs(codec, intent, log, lines, tail)
    requires log.tail.Unterminated? ==> log.records != []
    requires 0 < w.count <= |codec.render(w.record)|
    ensures ReadsAs(codec, intent, Grow(log, w.record, AmountOf(codec, w)), lines,
              tail + codec.render(w.record)[..w.count])
  {
    match log.tail
    case Clean =>
      PartOnClean(codec, intent, log, lines, tail, w);
    case Unterminated =>
      SpoiledGrows(codec, tail, w.record, w.count);
      var all := [IntentRecord(intent, ShaOf(intent))] + log.records;
      assert [IntentRecord(intent, ShaOf(intent))] + log.records[..|log.records| - 1] == all[..|all| - 1];
    case Torn =>
      SpoiledGrows(codec, tail, w.record, w.count);
    case Corrupt =>
      assert OneLine(tail + codec.render(w.record)[..w.count]);
  }

  lemma PartOnClean(codec: Codec, intent: Intent, log: Log, lines: seq<string>, tail: string, w: Write)
    requires Sound(codec) && log.tail.Clean? && ReadsAs(codec, intent, log, lines, tail)
    requires 0 < w.count <= |codec.render(w.record)|
    ensures ReadsAs(codec, intent, Grow(log, w.record, AmountOf(codec, w)), lines,
              tail + codec.render(w.record)[..w.count])
  {
    var text := codec.render(w.record);
    assert tail + text[..w.count] == text[..w.count];
    if w.count < |text| {
      ProperPrefixOpen(text, w.count);
    } else {
      assert text[..w.count] == text;
      var all := [IntentRecord(intent, ShaOf(intent))] + log.records;
      var grown := [IntentRecord(intent, ShaOf(intent))] + (log.records + [w.record]);
      assert grown[..|grown| - 1] == all && grown[|grown| - 1] == w.record;
    }
  }

  lemma {:induction false} HistoryHolds(codec: Codec, intent: Intent, writes: seq<Write>)
    returns (lines: seq<string>, tail: string)
    requires Sound(codec)
    ensures ReadsAs(codec, intent, Fold(codec, writes), lines, tail)
    ensures FileText(codec, intent, writes) == Join(lines) + tail
  {
    if writes == [] {
      lines, tail := [codec.render(IntentRecord(intent, ShaOf(intent)))], "";
      assert lines[1..] == [] && Join(lines) == lines[0] + "\n" + Join(lines[1..]);
      var all := [IntentRecord(intent, ShaOf(intent))];
      assert all + [] == all && all[1..] == [];
      assert Holds(codec, intent, Fold(codec, writes), lines, tail);
    } else {
      var n := |writes| - 1;
      var l, t := HistoryHolds(codec, intent, writes[..n]);
      lines, tail := HoldsStep(codec, intent, Fold(codec, writes[..n]), l, t, writes[n]);
    }
  }

  lemma {:induction false} ReadRenders(codec: Codec, records: seq<Record>, tail: string, any: bool)
    requires Sound(codec) && (any || records != []) && (tail == "" || Spoiled(tail))
    ensures ReadLines(codec, Renders(codec, records) + [tail], any) == Some(records)
  {
    var lines := Renders(codec, records) + [tail];
    if records == [] {
      assert lines == [tail];
    } else {
      assert lines[0] == codec.render(records[0]) && lines[1..] == Renders(codec, records[1..]) + [tail];
      ReadRenders(codec, records[1..], tail, true);
      assert [records[0]] + records[1..] == records;
    }
  }

  lemma {:induction false} ReadUnterminated(codec: Codec, records: seq<Record>, any: bool)
    requires Sound(codec) && records != []
    ensures ReadLines(codec, Renders(codec, records[..|records| - 1]) + [codec.render(records[|records| - 1])], any) ==
              Some(records)
  {
    var n := |records| - 1;
    var lines := Renders(codec, records[..n]) + [codec.render(records[n])];
    assert lines[0] == codec.render(records[0]);
    if n == 0 {
      assert lines == [codec.render(records[0])] && lines[1..] == [];
      assert ReadLines(codec, [], true) == Some([]) && [records[0]] + [] == records;
    } else {
      assert records[..n][1..] == records[1..][..n - 1];
      assert lines[1..] == Renders(codec, records[1..][..n - 1]) + [codec.render(records[1..][n - 1])];
      ReadUnterminated(codec, records[1..], true);
      assert [records[0]] + records[1..] == records;
    }
  }

  /** A line that is not JSON is forgiven only at the very end of the file. */
  lemma {:induction false} DamagedLineRefused(codec: Codec, lines: seq<string>, i: nat, any: bool)
    requires i < |lines| - 1 && (lines[i] == "" || !codec.parse(lines[i]).JsonObject?)
    ensures ReadLines(codec, lines, any) == None
  {
    if i > 0 { DamagedLineRefused(codec, lines[1..], i - 1, true); }
  }

  predicate IsRecord(codec: Codec, line: string) {
    line != "" && codec.parse(line).JsonObject?
  }

  /** Which lines can be read: all before the last are records; the last may also be empty, or anything that is no JSON
      at all if there is a record before it - but not JSON of another kind. Then all records are returned, the last one
      too if it is one. */
  lemma {:induction false} ReadExactly(codec: Codec, lines: seq<string>, any: bool)
    requires lines != []
    ensures var n, last, read := |lines| - 1, lines[|lines| - 1], ReadLines(codec, lines, any);
            && (read.Some? <==>
                && (forall i :: 0 <= i < n ==> IsRecord(codec, lines[i]))
                && (last == "" || IsRecord(codec, last) || (codec.parse(last) == NotJson && (any || n > 0))))
            && (read.Some? ==>
                  && |read.value| == n + (if IsRecord(codec, last) then 1 else 0)
                  && forall i :: 0 <= i < |read.value| ==> codec.parse(lines[i]) == JsonObject(read.value[i]))
  {
    if |lines| > 1 {
      ReadExactly(codec, lines[1..], true);
      assert forall i :: 0 < i < |lines| ==> lines[1..][i - 1] == lines[i];
      var rest := ReadLines(codec, lines[1..], true);
      if rest.Some? && IsRecord(codec, lines[0]) {
        assert ReadLines(codec, lines, any) == Some([codec.parse(lines[0]).record] + rest.value);
      }
    }
  }

  /** Main result: after any history of appends, each cut anywhere, the file loads as the log says. */
  lemma LoadOfHistory(codec: Codec, intent: Intent, writes: seq<Write>)
    requires Sound(codec)
    ensures Load(codec, FileText(codec, intent, writes)) == LoadLog(intent, Fold(codec, writes))
  {
    var log := Fold(codec, writes);
    var lines, tail := HistoryHolds(codec, intent, writes);
    SplitJoin(lines, tail);
    var all := [IntentRecord(intent, ShaOf(intent))] + log.records;
    match log.tail
    case Clean => ReadRenders(codec, all, tail, false);
    case Torn => ReadRenders(codec, all, tail, false);
    case Unterminated => ReadUnterminated(codec, all, false);
    case Corrupt =>
      var i :| 1 <= i < |lines| && Spoiled(lines[i]);
      DamagedLineRefused(codec, lines + [tail], i, false);
  }

  // ----- What a reader gets back -----

  predicate Cut(codec: Codec, w: Write) {
    AmountOf(codec, w) in {Part, AllButNewline}
  }

  /** Some append reached the file in full after an earlier one had been cut short. */
  ghost predicate WroteAfterCut(codec: Codec, writes: seq<Write>) {
    exists i, j :: 0 <= i < j < |writes| && Cut(codec, writes[i]) && AmountOf(codec, writes[j]).Whole?
  }

  lemma {:induction false} CorruptExactly(codec: Codec, writes: seq<Write>)
    ensures Fold(codec, writes).tail.Corrupt? <==> WroteAfterCut(codec, writes)
    ensures Fold(codec, writes).tail.Clean? <==> forall w <- writes :: !Cut(codec, w)
  {
    if writes != [] {
      var n := |writes| - 1;
      CorruptExactly(codec, writes[..n]);
      assert writes == writes[..n] + [writes[n]];
      assert forall w :: w in writes <==> w == writes[n] || w in writes[..n];
      assert forall i :: 0 <= i < n ==> writes[..n][i] == writes[i];
      assert writes[n] in writes;
      if Fold(codec, writes[..n]).tail.Clean? && !Cut(codec, writes[n]) {
        assert Fold(codec, writes).tail.Clean?;
      } else {
        assert !Fold(codec, writes).tail.Clean?;
        assert exists w :: w in writes && Cut(codec, w);
      }
    }
  }

  /** A file is refused because of tearing exactly when an append was completed after an earlier one was cut:
      a cut last line is forgiven, the same line with anything complete behind it is not. */
  lemma TearingRefusedExactly(codec: Codec, intent: Intent, writes: seq<Write>)
    requires Sound(codec) && LoadRecords([IntentRecord(intent, ShaOf(intent))] + Fold(codec, writes).records).Loaded?
    ensures Load(codec, FileText(codec, intent, writes)).Rejected? <==> WroteAfterCut(codec, writes)
  {
    LoadOfHistory(codec, intent, writes);
    CorruptExactly(codec, writes);
  }

  /** Two appends are enough for a refusal: one cut after its first character, another completed behind it. */
  lemma RefusedAfterCut(codec: Codec, intent: Intent, cut: Record, whole: Record)
    requires Sound(codec)
    ensures Load(codec, FileText(codec, intent, [Write(cut, 1), Write(whole, |codec.render(whole)| + 1)])).Rejected?
  {
    var writes := [Write(cut, 1), Write(whole, |codec.render(whole)| + 1)];
    assert Rendered(codec.render(cut));
    assert Cut(codec, writes[0]) && AmountOf(codec, writes[1]).Whole?;
    CorruptExactly(codec, writes);
    LoadOfHistory(codec, intent, writes);
  }

  /** Cutting the last append anywhere gives back everything before it, and the last marker as well if only its line
      break is missing. */
  lemma TruncatedAnywhere(codec: Codec, intent: Intent, writes: seq<Write>, r: Record, count: nat)
    requires Sound(codec) && forall w <- writes :: !Cut(codec, w)
    ensures Load(codec, FileText(codec, intent, writes + [Write(r, count)])) ==
              LoadRecords([IntentRecord(intent, ShaOf(intent))] + Fold(codec, writes).records +
                          if count >= |codec.render(r)| then [r] else [])
  {
    var all := writes + [Write(r, count)];
    assert all[..|writes|] == writes;
    LoadOfHistory(codec, intent, all);
    CorruptExactly(codec, writes);
    var records := Fold(codec, writes).records;
    assert [IntentRecord(intent, ShaOf(intent))] + (records + [r]) == [IntentRecord(intent, ShaOf(intent))] + records +
             [r];
    assert [IntentRecord(intent, ShaOf(intent))] + records + [] == [IntentRecord(intent, ShaOf(intent))] + records;
  }

  predicate Ours(intent: Intent, r: Record) {
    r.MarkerRecord? && r.sha == ShaOf(intent)
  }

  predicate Prepares(r: Record) {
    r.MarkerRecord? && r.mark == ReceiptsPrepared
  }

  /** The records `load` accepts after the intent line: markers of this intent, receipts at most once and valid. */
  ghost predicate Acceptable(intent: Intent, records: seq<Record>) {
    && (forall r <- records :: Ours(intent, r))
    && (forall r <- records :: Prepares(r) ==> r.receipts.Some? && ValidReceipts(intent, r.receipts.value))
    && (forall i, j :: 0 <= i < j < |records| ==> !(Prepares(records[i]) && Prepares(records[j])))
  }

  function MarksOf(records: seq<Record>): seq<Mark>
    requires forall r <- records :: r.MarkerRecord?
  {
    seq(|records|, i requires 0 <= i < |records| => records[i].mark)
  }

  predicate Registers(records: seq<Record>, receipts: seq<Receipt>) {
    exists r <- records :: Prepares(r) && r.receipts == Some(receipts)
  }

  predicate NoneRegistered(records: seq<Record>) {
    forall r <- records :: !Prepares(r)
  }

  lemma {:induction false} MarkersRead(intent: Intent, records: seq<Record>, seen: Markers)
    ensures var m := ReadMarkers(intent, records, seen);
            && (m.Some? <==> Acceptable(intent, records) && (seen.receipts.Some? ==> NoneRegistered(records)))
            && (m.Some? ==> && m.value.marks == seen.marks + MarksOf(records)
                            && (NoneRegistered(records) ==> m.value.receipts == seen.receipts)
                            && (!NoneRegistered(records) ==>
                                  m.value.receipts.Some? && Registers(records, m.value.receipts.value)))
  {
    if records == [] {
      assert seen.marks + MarksOf(records) == seen.marks;
    } else if !Ours(intent, records[0]) {
      assert records[0] in records;
    } else {
      var r, rest := records[0], records[1..];
      assert records == [r] + rest;
      var next := Markers(seen.marks + [r.mark], if r.mark == ReceiptsPrepared then r.receipts else seen.receipts);
      MarkersRead(intent, rest, next);
      SplitAcceptable(intent, r, rest);
      if ReadMarkers(intent, records, seen).Some? {
        assert seen.marks + MarksOf(records) == next.marks + MarksOf(rest);
      }
    }
  }

  /** A journal is loaded exactly if it opens with a valid intent under its own digest and everything behind is
      acceptable. */
  lemma LoadedExactly(records: seq<Record>)
    ensures LoadRecords(records).Loaded? <==>
              && records != [] && records[0].IntentRecord?
              && ValidIntent(records[0].intent) && records[0].sha == ShaOf(records[0].intent)
              && Acceptable(records[0].intent, records[1..])
    ensures LoadRecords(records).Loaded? ==>
              LoadRecords(records).intent == records[0].intent
                  && LoadRecords(records).markers.marks == MarksOf(records[1..])
  {
    if records != [] && records[0].IntentRecord? {
      MarkersRead(records[0].intent, records[1..], Markers([], None));
      if LoadRecords(records).Loaded? { assert [] + MarksOf(records[1..]) == MarksOf(records[1..]); }
    }
  }

  lemma SplitAcceptable(intent: Intent, r: Record, rest: seq<Record>)
    requires Ours(intent, r)
    ensures Acceptable(intent, [r] + rest) <==>
            && Acceptable(intent, rest)
            && (Prepares(r) ==>
                  NoneRegistered(rest) && r.receipts.Some? && ValidReceipts(intent, r.receipts.value))
    ensures NoneRegistered([r] + rest) <==> !Prepares(r) && NoneRegistered(rest)
  {
    var all := [r] + rest;
    assert all[0] == r && forall i :: 0 <= i < |rest| ==> all[i + 1] == rest[i];
    assert forall q :: q in all <==> q == r || q in rest;
    if Acceptable(intent, all) {
      forall i, j | 0 <= i < j < |rest| ensures !(Prepares(rest[i]) && Prepares(rest[j])) {
        assert all[i + 1] == rest[i] && all[j + 1] == rest[j];
      }
    }
  }

  /** Whatever a file says, what is loaded from it names only paths under its own roots, without parent steps: a document
      and its copies under the documents and the transaction directory, anything else under the data root with its
      copies right in the control root. Entries come group after group, each with a name of its own, and the receipts,
      if any are registered, are one for each client, at its place right in the control root, under their own digest. */
  lemma LoadedStaysInside(codec: Codec, text: string)
    requires Load(codec, text).Loaded?
    ensures var intent, receipts := Load(codec, text).intent, Load(codec, text).markers.receipts;
            && (forall e <- intent.entries :: e.name != "" && Contained(intent, e))
            && (forall i, j :: 0 <= i < j < |intent.entries| ==>
                  && (intent.entries[i].group == intent.entries[j].group ==>
                        intent.entries[i].name != intent.entries[j].name)
                  && (intent.entries[i].group == Document ==> intent.entries[j].group == Document)
                  && (intent.entries[j].group == Root ==> intent.entries[i].group == Root))
            && (receipts.Some? ==>
                  && |receipts.value| == |intent.clients|
                  && forall i :: 0 <= i < |intent.clients| ==> InPlace(intent, receipts.value[i], intent.clients[i]))
  {
    var records := ReadLines(codec, Split(text), false).value;
    LoadedExactly(records);
    var intent, receipts := Load(codec, text).intent, Load(codec, text).markers.receipts;
    assert ValidIntent(intent);
    forall e | e in intent.entries ensures Contained(intent, e) {
      assert e.production in e.Paths() && e.candidate in e.Paths() && e.backup in e.Paths();
      assert if e.group.Document? then InDocuments(intent, e) else InControl(intent, e);
    }
    if receipts.Some? {
      MarkersRead(intent, records[1..], Markers([], None));
      assert ValidReceipts(intent, receipts.value);
    }
  }

  /** The paths of `e` are where recovery may act. */
  predicate Contained(intent: Intent, e: Entry) {
    && ".." !in e.production && ".." !in e.candidate && ".." !in e.backup
    && if e.group == Document then
         && intent.docRoot <= e.production && intent.transactionRoot.Some?
         && intent.transactionRoot.value <= e.candidate && intent.transactionRoot.value <= e.backup
       else
         && intent.dataRoot <= e.production
         && intent.controlRoot <= e.candidate && |e.candidate| == |intent.controlRoot| + 1
         && intent.controlRoot <= e.backup && |e.backup| == |intent.controlRoot| + 1
  }

  /** `r` is the receipt of `client`, where it belongs. */
  predicate InPlace(intent: Intent, r: Receipt, client: Client) {
    && r.client == client && r.sha == r.payload
    && client in intent.receiptPaths && r.path == intent.receiptPaths[client]
    && intent.controlRoot <= r.path && |r.path| == |intent.controlRoot| + 1
  }
}
