/**
 Comparing and patching configuration files (kconfig/diffconf2.py).

 A file is a sequence of lines that end in a newline.  The source prints names in sorted
 order; what is read back does not depend on the order, so every order is allowed here.
 */
module DiffConf {
  import opened Options

  type Config = map<string, string>

  const PREFIX := "CONFIG_"
  const UNSET := " is not set"

  predicate HasPrefix(s: string, p: string) {
    |p| <= |s| && s[..|p|] == p
  }

  predicate HasSuffix(s: string, p: string) {
    |p| <= |s| && s[|s| - |p|..] == p
  }

  // ---- Reading ----

  /** The position of the first '=', or the length when there is none. */
  function EqualSign(s: string): (i: nat)
    ensures i <= |s| && '=' !in s[..i] && (i < |s| ==> s[i] == '=')
  {
    if s == "" || s[0] == '=' then 0
    else
      var i := EqualSign(s[1..]);
      assert s[..i + 1] == [s[0]] + s[1..][..i];
      i + 1
  }

  /** A configuration line without '=' stops the reader. */
  function ReadAssignment(d: Config, line: string): Option<Config> {
    if !HasPrefix(line, PREFIX) then Some(d)
    else
      var rest := line[|PREFIX|..];
      var i := EqualSign(rest);
      if i == |rest| then None else Some(d[rest[..i] := rest[i + 1..]])
  }

  /** The name in a line that ends like an unset option, whatever the line begins with. */
  function UnsetName(line: string): (name: string)
    requires HasSuffix(line, UNSET)
    ensures |name| <= |line| - |UNSET|
    ensures |line| - |UNSET| >= 9 ==> |name| == |line| - |UNSET| - 9
  {
    var end := |line| - |UNSET|;
    if end < 9 then "" else line[9..end]
  }

  function ReadUnset(d: Config, line: string): Config {
    if !HasSuffix(line, UNSET) then d else d[UnsetName(line) := "n"]
  }

  function ReadRemoval(d: Config, line: string): Config {
    if !HasPrefix(line, "-" + PREFIX) then d else d[line[1 + |PREFIX|..] := "-"]
  }

  /** A line is read by every rule that matches it. */
  function ReadLine(d: Config, raw: string): Option<Config> {
    var line := if raw == "" then "" else raw[..|raw| - 1];
    match ReadAssignment(d, line)
    case None => None
    case Some(d1) => Some(ReadRemoval(ReadUnset(d1, line), line))
  }

  function Read(d: Config, lines: seq<string>): Option<Config>
    decreases |lines|
  {
    if lines == [] then Some(d)
    else
      match ReadLine(d, lines[0])
      case None => None
      case Some(d1) => Read(d1, lines[1..])
  }

  method ReadOne(d0: Config, raw: string) returns (r: Option<Config>)
    ensures r == ReadLine(d0, raw)
  {
    var d := d0;
    var line := if raw == "" then "" else raw[..|raw| - 1];
    if HasPrefix(line, PREFIX) {
      var rest := line[|PREFIX|..];
      var i := EqualSign(rest);
      if i == |rest| { return None; }
      d := d[rest[..i] := rest[i + 1..]];
    }
    if HasSuffix(line, UNSET) {
      var end := |line| - |UNSET|;
      d := d[(if end < 9 then "" else line[9..end]) := "n"];
    }
    if HasPrefix(line, "-" + PREFIX) {
      d := d[line[1 + |PREFIX|..] := "-"];
    }
    return Some(d);
  }

  method ReadConfig(lines: seq<string>) returns (r: Option<Config>)
    ensures r == Read(map[], lines)
  {
    hide ReadLine;
    var d: Config := map[];
    var i := 0;
    while i < |lines|
      invariant 0 <= i <= |lines| && Read(d, lines[i..]) == Read(map[], lines)
    {
      assert lines[i..][1..] == lines[i + 1..];
      var d1 := ReadOne(d, lines[i]);
      if d1.None? { return None; }
      d, i := d1.value, i + 1;
    }
    return Some(d);
  }

  // ---- Printing ----

  function PrintValue(name: string, value: string): string {
    if value == "n" then "# " + PREFIX + name + UNSET + "\n" else PREFIX + name + "=" + value + "\n"
  }

  function PrintRemoval(name: string): string {
    "-" + PREFIX + name + "\n"
  }

  /** The three kinds of lines. */
  lemma LinesPrinted(name: string, value: string)
    ensures PrintValue(name, "n") == "# CONFIG_" + name + " is not set\n"
    ensures value != "n" ==> PrintValue(name, value) == "CONFIG_" + name + "=" + value + "\n"
    ensures PrintRemoval(name) == "-CONFIG_" + name + "\n"
  {
    assert "# " + PREFIX == "# CONFIG_" && UNSET + "\n" == " is not set\n";
    assert "# " + PREFIX + name + UNSET + "\n" == "# CONFIG_" + name + (UNSET + "\n");
    assert "-" + PREFIX == "-CONFIG_";
  }

  /** What is printed comes from lines, so that neither names nor values hold a newline. */
  predicate OneLine(s: string) {
    '\n' !in s
  }

  /** An assignment reads back unless its name holds '=' or its value ends like an unset
      option; an unset option reads back whatever its name is. */
  predicate ValueOk(name: string, value: string) {
    && OneLine(name) && OneLine(value)
    && (value == "n" || ('=' !in name && !HasSuffix(value, UNSET)))
  }

  /** A removal reads back unless its name ends like an unset option. */
  predicate RemovalOk(name: string) {
    OneLine(name) && !HasSuffix(name, UNSET)
  }

  lemma NoUnsetSuffix(front: string, back: string)
    requires ' ' !in front && !HasSuffix(back, UNSET)
    ensures !HasSuffix(front + back, UNSET)
  {
    var line := front + back;
    var p := |line| - |UNSET|;
    if 0 <= p < |front| {
      assert line[p..][0] == front[p] && UNSET[0] == ' ';
    } else if |front| <= p {
      assert line[p..] == back[p - |front|..];
    }
  }

  /** The ending has no '=', so that it cannot reach back over one. */
  lemma NoUnsetValue(front: string, value: string)
    requires !HasSuffix(value, UNSET)
    ensures !HasSuffix(front + "=" + value, UNSET)
  {
    var line := front + "=" + value;
    var p := |line| - |UNSET|;
    if 0 <= p <= |front| {
      assert line[p..][|front| - p] == '=' && '=' !in UNSET;
    } else if |front| < p {
      assert line[p..] == value[p - |front| - 1..];
    }
  }

  lemma {:induction false} FirstEqualSign(name: string, value: string)
    requires '=' !in name
    ensures EqualSign(name + "=" + value) == |name|
    decreases |name|
  {
    var s := name + "=" + value;
    if name == "" {
    } else {
      assert s[1..] == name[1..] + "=" + value;
      FirstEqualSign(name[1..], value);
    }
  }

  lemma AssignmentRead(d: Config, name: string, value: string)
    requires '=' !in name
    ensures ReadAssignment(d, PREFIX + (name + "=" + value)) == Some(d[name := value])
  {
    var rest := name + "=" + value;
    assert (PREFIX + rest)[..|PREFIX|] == PREFIX && (PREFIX + rest)[|PREFIX|..] == rest;
    FirstEqualSign(name, value);
    assert rest[..|name|] == name && rest[|name| + 1..] == value;
  }

  lemma ReadsAssignment(d: Config, name: string, value: string)
    requires '=' !in name && !HasSuffix(value, UNSET)
    ensures ReadLine(d, PREFIX + name + "=" + value + "\n") == Some(d[name := value])
  {
    hide ReadAssignment, HasSuffix;
    var line := PREFIX + name + "=" + value;
    assert line == PREFIX + (name + "=" + value);
    AssignmentRead(d, name, value);
    NoUnsetValue(PREFIX + name, value);
    assert (line + "\n")[..|line|] == line && line[0] == 'C';
  }

  lemma ReadsUnset(d: Config, name: string)
    ensures ReadLine(d, "# " + PREFIX + name + UNSET + "\n") == Some(d[name := "n"])
  {
    var line := "# " + PREFIX + name + UNSET;
    assert (line + "\n")[..|line|] == line;
    assert line[0] == '#';
    assert line[|line| - |UNSET|..] == UNSET;
    assert line[9..|line| - |UNSET|] == name;
  }

  lemma ReadsRemoval(d: Config, name: string)
    requires !HasSuffix(name, UNSET)
    ensures ReadLine(d, PrintRemoval(name)) == Some(d[name := "-"])
  {
    var line := "-" + PREFIX + name;
    assert (line + "\n")[..|line|] == line;
    assert line[0] == '-';
    assert line[..1 + |PREFIX|] == "-" + PREFIX;
    assert line[1 + |PREFIX|..] == name;
    NoUnsetSuffix("-" + PREFIX, name);
  }

  lemma ReadsValue(d: Config, name: string, value: string)
    requires ValueOk(name, value)
    ensures ReadLine(d, PrintValue(name, value)) == Some(d[name := value])
  {
    if value == "n" {
      ReadsUnset(d, name);
    } else {
      ReadsAssignment(d, name, value);
    }
  }

  lemma SplitsAtFirst(name: string, value: string)
    requires '=' in name
    ensures EqualSign(name + "=" + value) < |name|
  {
    var s := name + "=" + value;
    var i := EqualSign(s);
    var j :| 0 <= j < |name| && name[j] == '=';
    assert s[j] == '=' && forall q | 0 <= q < i :: s[..i][q] == s[q];
  }

  /** A line of its own: the exact condition for a value to be read back. */
  lemma ValueReadsExactly(name: string, value: string)
    ensures ReadLine(map[], PrintValue(name, value)) == Some(map[name := value]) <==>
            value == "n" || ('=' !in name && !HasSuffix(value, UNSET))
  {
    if value == "n" {
      ReadsUnset(map[], name);
      assert map[][name := "n"] == map[name := value];
    } else if '=' in name {
      WrongName(name, value);
    } else if HasSuffix(value, UNSET) {
      TwoNames(name, value);
    } else {
      ReadsAssignment(map[], name, value);
      assert map[][name := value] == map[name := value];
    }
  }

  lemma WrongName(name: string, value: string)
    requires '=' in name && value != "n"
    ensures ReadLine(map[], PrintValue(name, value)) != Some(map[name := value])
  {
    hide HasSuffix;
    var rest := name + "=" + value;
    var line := PREFIX + rest;
    assert PrintValue(name, value) == line + "\n" && (line + "\n")[..|line|] == line;
    assert line[..|PREFIX|] == PREFIX && line[|PREFIX|..] == rest && line[0] == 'C';
    SplitsAtFirst(name, value);
    var i := EqualSign(rest);
    var d := ReadAssignment(map[], line).value;
    assert rest[..i] in d && |rest[..i]| < |name|;
    assert rest[..i] in ReadUnset(d, line);
    assert rest[..i] !in map[name := value];
  }

  lemma SuffixKept(front: string, back: string)
    requires HasSuffix(back, UNSET)
    ensures HasSuffix(front + back, UNSET)
  {
    assert (front + back)[|front| + |back| - |UNSET|..] == back[|back| - |UNSET|..];
  }

  /** An assignment whose end looks like an unset option is read twice. */
  lemma ReadTwice(line: string, d: Config)
    requires line != "" && line[0] == 'C' && HasSuffix(line, UNSET) && ReadAssignment(map[], line) == Some(d)
    ensures ReadLine(map[], line + "\n") == Some(d[UnsetName(line) := "n"])
  {
    hide ReadAssignment, HasSuffix, UnsetName;
    assert (line + "\n")[..|line|] == line;
    NoRemoval(line, d[UnsetName(line) := "n"]);
  }

  lemma NoRemoval(line: string, d: Config)
    requires line != "" && line[0] == 'C'
    ensures ReadRemoval(d, line) == d
  {
  }

  lemma PrintsAssignment(name: string, value: string)
    requires value != "n"
    ensures PrintValue(name, value) == PREFIX + (name + "=" + value) + "\n"
  {
  }

  lemma TwoNames(name: string, value: string)
    requires '=' !in name && HasSuffix(value, UNSET)
    ensures ReadLine(map[], PrintValue(name, value)) != Some(map[name := value])
  {
    assert value != "n";
    hide ReadAssignment, HasSuffix, UnsetName, ReadLine, PrintValue;
    var line := PREFIX + (name + "=" + value);
    assert line[0] == 'C';
    PrintsAssignment(name, value);
    AssignmentRead(map[], name, value);
    SuffixKept(name + "=", value);
    SuffixKept(PREFIX, name + "=" + value);
    ReadTwice(line, map[][name := value]);
    DifferentMaps(name, value, UnsetName(line));
  }

  lemma DifferentMaps(name: string, value: string, k: string)
    requires value != "n"
    ensures map[][name := value][k := "n"] != map[name := value]
  {
    assert map[][name := value][k := "n"][k] == "n";
  }

  /** The exact condition for a removal. */
  lemma RemovalReadsExactly(name: string)
    ensures ReadLine(map[], PrintRemoval(name)) == Some(map[name := "-"]) <==> !HasSuffix(name, UNSET)
  {
    if HasSuffix(name, UNSET) {
      OtherName(name);
    } else {
      ReadsRemoval(map[], name);
      assert map[][name := "-"] == map[name := "-"];
    }
  }

  lemma OtherName(name: string)
    requires HasSuffix(name, UNSET)
    ensures ReadLine(map[], PrintRemoval(name)) != Some(map[name := "-"])
  {
    var line := "-" + PREFIX + name;
    assert PrintRemoval(name) == line + "\n" && (line + "\n")[..|line|] == line && line[0] == '-';
    assert line[..1 + |PREFIX|] == "-" + PREFIX && line[1 + |PREFIX|..] == name;
    SuffixKept("-" + PREFIX, name);
    var k := UnsetName(line);
    assert |k| < |name|;
    hide HasSuffix, UnsetName;
    var d: Config := map[][k := "n"][name := "-"];
    assert ReadLine(map[], PrintRemoval(name)) == Some(d);
    assert k in d && k !in map[name := "-"];
  }

  // ---- Whole files ----

  function Text(lines: seq<string>): string {
    if lines == [] then "" else lines[0] + Text(lines[1..])
  }

  predicate IsLine(s: string) {
    s != "" && s[|s| - 1] == '\n' && '\n' !in s[..|s| - 1]
  }

  function LineEnd(t: string): (i: nat)
    requires t != ""
    ensures 1 <= i <= |t| && '\n' !in t[..i - 1] && (t[i - 1] == '\n' || i == |t|)
  {
    if t[0] == '\n' || |t| == 1 then 1
    else
      var i := LineEnd(t[1..]);
      assert t[..i] == [t[0]] + t[1..][..i - 1];
      i + 1
  }

  function SplitLines(t: string): seq<string> {
    if t == "" then [] else [t[..LineEnd(t)]] + SplitLines(t[LineEnd(t)..])
  }

  lemma FirstLine(s: string, rest: string)
    requires IsLine(s)
    ensures LineEnd(s + rest) == |s|
  {
    var t := s + rest;
    var i := LineEnd(t);
    assert t[|s| - 1] == '\n';
    assert forall q | 0 <= q < |s| - 1 :: t[q] == s[..|s| - 1][q];
    assert forall q | 0 <= q < i - 1 :: t[q] == t[..i - 1][q];
  }

  lemma {:induction false} SplitText(lines: seq<string>)
    requires forall s | s in lines :: IsLine(s)
    ensures SplitLines(Text(lines)) == lines
    decreases |lines|
  {
    hide IsLine, LineEnd;
    if lines == [] {
    } else {
      var s, rest := lines[0], Text(lines[1..]);
      assert s in lines;
      LinesAreNotEmpty(s);
      FirstLine(s, rest);
      assert (s + rest)[..|s|] == s && (s + rest)[|s|..] == rest;
      SplitText(lines[1..]);
    }
  }

  lemma LinesAreNotEmpty(s: string)
    requires IsLine(s)
    ensures s != ""
  {
  }

  function ReadText(t: string): Option<Config> {
    Read(map[], SplitLines(t))
  }

  /** Every key once, in any order. */
  ghost predicate Lists(order: seq<string>, keys: set<string>) {
    && (forall k :: k in order <==> k in keys)
    && (forall i, j | 0 <= i < j < |order| :: order[i] != order[j])
  }

  function PrintEntry(name: string, entry: Option<string>): string {
    if entry.None? then PrintRemoval(name) else PrintValue(name, entry.value)
  }

  /** The line of each name, as a function of its entry: a value, or a removal. */
  function PrintEntries(entries: map<string, Option<string>>, order: seq<string>): (lines: seq<string>)
    requires forall k | k in order :: k in entries
    ensures |lines| == |order|
    ensures forall i | 0 <= i < |order| :: lines[i] == PrintEntry(order[i], entries[order[i]])
  {
    seq(|order|, i requires 0 <= i < |order| => PrintEntry(order[i], entries[order[i]]))
  }

  predicate EntryOk(name: string, entry: Option<string>) {
    if entry.None? then RemovalOk(name) else ValueOk(name, entry.value)
  }

  predicate EntriesOk(entries: map<string, Option<string>>) {
    forall k | k in entries :: EntryOk(k, entries[k])
  }

  function AsRead(entry: Option<string>): string {
    if entry.None? then "-" else entry.value
  }

  function Values(entries: map<string, Option<string>>, order: seq<string>): Config
    requires forall k | k in order :: k in entries
  {
    map k | k in order :: AsRead(entries[k])
  }

  lemma ValuesStep(d: Config, entries: map<string, Option<string>>, order: seq<string>)
    requires order != [] && forall k | k in order :: k in entries
    ensures d[order[0] := AsRead(entries[order[0]])] + Values(entries, order[1..]) == d + Values(entries, order)
  {
    assert order == [order[0]] + order[1..];
  }

  /** Reading back gives every entry, whatever the order. */
  lemma {:induction false} ReadsEntries(d: Config, entries: map<string, Option<string>>, order: seq<string>)
    requires EntriesOk(entries) && forall k | k in order :: k in entries
    ensures Read(d, PrintEntries(entries, order)) == Some(d + Values(entries, order))
    decreases |order|
  {
    if order == [] {
      assert d + Values(entries, order) == d;
    } else {
      hide ReadLine, Values;
      var k := order[0];
      if entries[k].None? { ReadsRemoval(d, k); } else { ReadsValue(d, k, entries[k].value); }
      ReadsEntries(d[k := AsRead(entries[k])], entries, order[1..]);
      assert PrintEntries(entries, order)[1..] == PrintEntries(entries, order[1..]);
      ValuesStep(d, entries, order);
    }
  }

  function AllRead(entries: map<string, Option<string>>): Config {
    map k | k in entries :: AsRead(entries[k])
  }

  lemma ValuesOfAll(entries: map<string, Option<string>>, order: seq<string>)
    requires Lists(order, entries.Keys)
    ensures map[] + Values(entries, order) == AllRead(entries)
  {
  }

  lemma ReadsAll(entries: map<string, Option<string>>, order: seq<string>)
    requires EntriesOk(entries) && Lists(order, entries.Keys)
    ensures ReadText(Text(PrintEntries(entries, order))) == Some(AllRead(entries))
  {
    hide PrintEntries, Text, SplitLines, Read, Values, AllRead;
    EntriesAreLines(entries, order);
    SplitText(PrintEntries(entries, order));
    ReadsEntries(map[], entries, order);
    ValuesOfAll(entries, order);
  }

  // ---- Diff and apply ----

  /** What a diff says about each name that it mentions: an empty value is printed like a
      removal. */
  function Diff(a: Config, b: Config): map<string, Option<string>> {
    map k | k in a.Keys + b.Keys && !(k in a && k in b && a[k] == b[k]) ::
      if k in b && b[k] != "" then Some(b[k]) else None
  }

  function Apply(a: Config, diff: Config): Config {
    map k | k in a.Keys + diff.Keys && !(k in diff && diff[k] == "-") :: if k in diff then diff[k] else a[k]
  }

  /** Values as the apply style prints them: an empty one is left out. */
  function Printed(m: Config): map<string, Option<string>> {
    map k | k in m && m[k] != "" :: Some(m[k])
  }

  /** Everything that the two commands print reads back. */
  predicate ConfigsOk(a: Config, b: Config) {
    EntriesOk(Diff(a, b)) && EntriesOk(Printed(b))
  }

  /** What the round trip keeps. */
  predicate Representable(a: Config, b: Config) {
    forall k | k in b :: b[k] != "" && (b[k] == "-" ==> k in a && a[k] == "-")
  }

  function DiffAsRead(a: Config, b: Config): Config {
    AllRead(Diff(a, b))
  }

  function NonEmpty(m: Config): Config {
    map k | k in m && m[k] != "" :: m[k]
  }

  lemma EntriesAreLines(entries: map<string, Option<string>>, order: seq<string>)
    requires EntriesOk(entries) && forall k | k in order :: k in entries
    ensures forall s | s in PrintEntries(entries, order) :: IsLine(s)
  {
    var lines := PrintEntries(entries, order);
    forall i | 0 <= i < |order| ensures IsLine(lines[i]) {
      assert order[i] in order;
      EntryIsLine(order[i], entries[order[i]]);
    }
  }

  lemma EntryIsLine(name: string, entry: Option<string>)
    requires EntryOk(name, entry)
    ensures IsLine(PrintEntry(name, entry))
  {
  }

  lemma DiffIsRead(a: Config, b: Config, order: seq<string>)
    requires ConfigsOk(a, b) && Lists(order, Diff(a, b).Keys)
    ensures ReadText(Text(PrintEntries(Diff(a, b), order))) == Some(DiffAsRead(a, b))
  {
    ReadsAll(Diff(a, b), order);
  }

  lemma PrintedRead(m: Config)
    ensures AllRead(Printed(m)) == NonEmpty(m)
  {
  }

  lemma MergedIsRead(m: Config, order: seq<string>)
    requires EntriesOk(Printed(m)) && Lists(order, Printed(m).Keys)
    ensures ReadText(Text(PrintEntries(Printed(m), order))) == Some(NonEmpty(m))
  {
    hide ReadText, AllRead, NonEmpty, Lists;
    ReadsAll(Printed(m), order);
    PrintedRead(m);
  }

  /** Main result: printing the difference of two configurations, applying it to the first
      and reading the outcome gives the second exactly when every value is representable,
      in whatever order the lines are printed. */
  lemma DiffThenApply(a: Config, b: Config, order: seq<string>, order': seq<string>)
    requires ConfigsOk(a, b) && Lists(order, Diff(a, b).Keys)
    requires Lists(order', Printed(Apply(a, DiffAsRead(a, b))).Keys)
    ensures ReadText(Text(PrintEntries(Diff(a, b), order))) == Some(DiffAsRead(a, b))
    ensures ReadText(Text(PrintEntries(Printed(Apply(a, DiffAsRead(a, b))), order'))) == Some(b) <==>
            Representable(a, b)
  {
    DiffIsRead(a, b, order);
    var m := Apply(a, DiffAsRead(a, b));
    MergedIsOk(a, b);
    MergedIsRead(m, order');
    RoundTrip(a, b);
  }

  lemma MergedIsOk(a: Config, b: Config)
    requires ConfigsOk(a, b)
    ensures EntriesOk(Printed(Apply(a, DiffAsRead(a, b))))
  {
    hide DiffAsRead, Diff, ValueOk;
    var m := Apply(a, DiffAsRead(a, b));
    forall k | k in Printed(m) ensures EntryOk(k, Printed(m)[k]) {
      RoundTripOf(a, b, k);
      assert k in Printed(b) && Printed(b)[k] == Printed(m)[k];
    }
  }

  /** What becomes of one name. */
  lemma RoundTripOf(a: Config, b: Config, k: string)
    ensures var r := NonEmpty(Apply(a, DiffAsRead(a, b)));
            && (k in r <==> k in b && b[k] != "" && (b[k] == "-" ==> k in a && a[k] == "-"))
            && (k in r ==> r[k] == b[k])
  {
    var d := DiffAsRead(a, b);
    assert k in d <==> k in Diff(a, b);
  }

  lemma RoundTrip(a: Config, b: Config)
    ensures NonEmpty(Apply(a, DiffAsRead(a, b))) == b <==> Representable(a, b)
  {
    hide NonEmpty, Apply, DiffAsRead;
    forall k ensures var r := NonEmpty(Apply(a, DiffAsRead(a, b)));
                     && (k in r <==> k in b && b[k] != "" && (b[k] == "-" ==> k in a && a[k] == "-"))
                     && (k in r ==> r[k] == b[k]) {
      RoundTripOf(a, b, k);
    }
  }

  // ---- The commands as the source runs them ----

  /** The names in printing order, each once. */
  method Listed(keys: set<string>) returns (order: seq<string>)
    ensures Lists(order, keys)
  {
    order := [];
    var rest := keys;
    while rest != {}
      invariant rest <= keys && Lists(order, keys - rest)
      decreases |rest|
    {
      var k :| k in rest;
      order, rest := order + [k], rest - {k};
    }
    assert keys - rest == keys;
  }

  /** One line per name, with the style of a diff. */
  method PrintAll(b: Config, order: seq<string>, ghost entries: map<string, Option<string>>)
    returns (lines: seq<string>)
    requires forall k | k in order :: k in entries && entries[k] == if k in b && b[k] != "" then Some(b[k]) else None
    ensures lines == PrintEntries(entries, order)
  {
    hide PrintValue, PrintRemoval, PrintEntries;
    lines := [];
    var i := 0;
    while i < |order|
      invariant 0 <= i <= |order| && |lines| == i
      invariant forall j | 0 <= j < i :: lines[j] == PrintEntry(order[j], entries[order[j]])
    {
      var k := order[i];
      lines := lines + [if k in b && b[k] != "" then PrintValue(k, b[k]) else PrintRemoval(k)];
      i := i + 1;
    }
  }

  /** The diff command: names that are gone, then changed ones, then new ones. */
  method DiffCommand(a0: Config, b0: Config) returns (lines: seq<string>, ghost order: seq<string>)
    ensures Lists(order, Diff(a0, b0).Keys) && lines == PrintEntries(Diff(a0, b0), order)
  {
    var gone := a0.Keys - b0.Keys;
    var both := a0.Keys * b0.Keys;
    var changed := {};
    var new_ := b0.Keys;
    var rest := both;
    while rest != {}
      invariant rest <= both
      invariant forall k :: k in changed <==> k in both - rest && a0[k] != b0[k]
      invariant forall k :: k in new_ <==> k in b0 && !(k in both - rest && a0[k] == b0[k])
      decreases |rest|
    {
      var k :| k in rest;
      if a0[k] != b0[k] {
        changed := changed + {k};
      } else {
        new_ := new_ - {k};
      }
      rest := rest - {k};
    }
    new_ := new_ - changed;
    var o1 := Listed(gone);
    var o2 := Listed(changed);
    var o3 := Listed(new_);
    ghost var d := Diff(a0, b0);
    hide Diff;
    order := o1 + o2 + o3;
    DiffKeys(a0, b0, gone, changed, new_);
    ListsTogether(o1, o2, gone, changed);
    ListsTogether(o1 + o2, o3, gone + changed, new_);
    lines := PrintAll(b0, o1 + o2 + o3, d);
  }

  lemma DiffKeys(a: Config, b: Config, gone: set<string>, changed: set<string>, new_: set<string>)
    requires gone == a.Keys - b.Keys
    requires forall k :: k in changed <==> k in a && k in b && a[k] != b[k]
    requires forall k :: k in new_ <==> k in b && k !in a
    ensures Diff(a, b).Keys == gone + changed + new_
    ensures forall k | k in Diff(a, b) :: Diff(a, b)[k] == if k in b && b[k] != "" then Some(b[k]) else None
  {
  }

  lemma ListsTogether(o1: seq<string>, o2: seq<string>, k1: set<string>, k2: set<string>)
    requires Lists(o1, k1) && Lists(o2, k2) && k1 !! k2
    ensures Lists(o1 + o2, k1 + k2)
  {
    var o := o1 + o2;
    forall i, j | 0 <= i < j < |o| ensures o[i] != o[j] {
      if i < |o1| <= j {
        assert o[i] in k1 && o[j] in k2;
      }
    }
    forall k ensures k in o <==> k in k1 + k2 {
      assert k in o <==> k in o1 || k in o2;
    }
  }

  /** The apply command. */
  method ApplyCommand(a: Config, diff: Config) returns (merged: Config)
    ensures merged == Apply(a, diff)
  {
    merged := a;
    var rest := diff.Keys;
    ghost var seen: Config := map[];
    while rest != {}
      invariant rest <= diff.Keys && seen == diff - rest
      invariant merged == Apply(a, seen)
      decreases |rest|
    {
      var k :| k in rest;
      ApplyStep(a, seen, k, diff[k]);
      if diff[k] == "-" {
        merged := merged - {k};
      } else {
        merged := merged[k := diff[k]];
      }
      rest, seen := rest - {k}, seen[k := diff[k]];
    }
    assert seen == diff;
  }

  lemma ApplyStep(a: Config, diff: Config, k: string, v: string)
    requires k !in diff
    ensures Apply(a, diff[k := v]) == if v == "-" then Apply(a, diff) - {k} else Apply(a, diff)[k := v]
  {
  }
}
