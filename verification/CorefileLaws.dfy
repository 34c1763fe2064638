/**
 * What the splicer keeps and what it writes, over one pass and over any number of passes.
 * `Unmanaged` and `ReadBlocks` are independent readers of a Corefile.
 */
module CorefileLaws {
  import opened Text
  import opened Objects
  import opened Corefile

  // ---- two independent readers ----

  /** The lines outside every block. */
  function Kept(lines: seq<string>, inBlock: bool): seq<string> {
    if lines == [] then []
    else if IsBegin(lines[0]) then Kept(lines[1..], true)
    else if IsEnd(lines[0]) then Kept(lines[1..], false)
    else (if inBlock then [] else [lines[0]]) + Kept(lines[1..], inBlock)
  }

  function EndsInBlock(lines: seq<string>, inBlock: bool): bool {
    if lines == [] then inBlock
    else if IsBegin(lines[0]) then EndsInBlock(lines[1..], true)
    else if IsEnd(lines[0]) then EndsInBlock(lines[1..], false)
    else EndsInBlock(lines[1..], inBlock)
  }

  function Unmanaged(text: string): seq<string> {
    Kept(Split(text, '\n'), false)
  }

  datatype Managed = Managed(key: string, body: seq<string>)

  /** Reads the blocks in order; fails on nested, unopened, mismatched or unclosed markers. */
  function Read(lines: seq<string>, open: Option<Managed>, done: seq<Managed>): Option<seq<Managed>> {
    if lines == [] then
      if open.None? then Some(done) else None
    else
      var line := lines[0];
      if IsBegin(line) then
        if open.Some? then None else Read(lines[1..], Some(Managed(BlockKey(line), [])), done)
      else if IsEnd(line) then
        if open.Some? && open.value.key == EndKey(line) then Read(lines[1..], None, done + [open.value]) else None
      else
        Read(lines[1..], if open.None? then None else Some(open.value.(body := open.value.body + [line])), done)
  }

  function ReadBlocks(text: string): Option<seq<Managed>> {
    Read(Split(text, '\n'), None, [])
  }

  // ---- hypotheses a caller can check ----

  predicate GoodDomain(d: string) {
    d != "" && SpaceFree(d)
  }

  predicate MarkerFree(text: string) {
    forall line <- Split(text, '\n') :: !IsMarker(line)
  }

  /** No line of a plugin entry is itself a marker, and the mount directory is one line. */
  predicate SafeConnector(conn: ConnectorSpec) {
    && '\n' !in conn.mountDir
    && forall plugin <- conn.plugins :: MarkerFree("\t" + plugin)
  }

  /** Operator-written BEGIN lines carry two spaces, so their key starts with white space. */
  predicate DoubleSpaced(line: string) {
    IsBegin(line) ==> BlockKey(line) != "" && IsSpace(BlockKey(line)[0])
  }

  /**
   * `text` has the lines of `base` outside its blocks, then exactly n blank lines; its last
   * block is closed and none of its markers can be looked up by a domain.
   */
  predicate Descends(base: string, text: string, n: nat) {
    && Unmanaged(text) == Split(base, '\n') + seq(n, _ => "")
    && !EndsInBlock(Split(text, '\n'), false)
    && forall line <- Split(text, '\n') :: DoubleSpaced(line)
  }

  // ---- readers over concatenation ----

  lemma {:induction false} KeptAppend(a: seq<string>, b: seq<string>, inBlock: bool)
    ensures Kept(a + b, inBlock) == Kept(a, inBlock) + Kept(b, EndsInBlock(a, inBlock))
    ensures EndsInBlock(a + b, inBlock) == EndsInBlock(b, EndsInBlock(a, inBlock))
  {
    hide IsBegin, IsEnd;
    if a == [] {
      assert a + b == b;
    } else {
      var line, rest := a[0], a[1..];
      assert (a + b)[0] == line && (a + b)[1..] == rest + b;
      if IsBegin(line) {
        KeptAppend(rest, b, true);
      } else if IsEnd(line) {
        KeptAppend(rest, b, false);
      } else {
        KeptAppend(rest, b, inBlock);
      }
    }
  }

  lemma {:induction false} PlainLines(lines: seq<string>, inBlock: bool)
    requires forall line <- lines :: !IsMarker(line)
    ensures Kept(lines, inBlock) == if inBlock then [] else lines
    ensures EndsInBlock(lines, inBlock) == inBlock
  {
    if lines != [] {
      assert lines[0] in lines;
      PlainLines(lines[1..], inBlock);
      assert [lines[0]] + lines[1..] == lines;
    }
  }

  lemma {:induction false} KeptPlain(lines: seq<string>, inBlock: bool)
    ensures forall line <- Kept(lines, inBlock) :: !IsMarker(line) && line in lines
  {
    if lines != [] {
      KeptPlain(lines[1..], IsBegin(lines[0]) || (!IsEnd(lines[0]) && inBlock));
    }
  }

  lemma {:induction false} ReadPlain(lines: seq<string>, rest: seq<string>, open: Option<Managed>, done: seq<Managed>)
    requires forall line <- lines :: !IsMarker(line)
    ensures Read(lines + rest, open, done) ==
      Read(rest, if open.None? then None else Some(open.value.(body := open.value.body + lines)), done)
  {
    if lines == [] {
      assert lines + rest == rest;
      assert open.Some? ==> open.value.body + lines == open.value.body;
    } else {
      assert lines[0] in lines && (lines + rest)[1..] == lines[1..] + rest;
      var next: Option<Managed> := if open.None? then None else Some(open.value.(body := open.value.body + [lines[0]]));
      ReadPlain(lines[1..], rest, next, done);
      assert open.Some? ==> open.value.body + [lines[0]] + lines[1..] == open.value.body + lines;
    }
  }

  // ---- the scanner without lookups ----

  /** No block table with these domains is hit by the line. */
  predicate Misses(line: string, domains: set<string>) {
    IsBegin(line) ==> BlockKey(line) !in domains
  }

  lemma SpacedMisses(lines: seq<string>, domains: set<string>)
    requires (forall line <- lines :: DoubleSpaced(line)) && forall d <- domains :: SpaceFree(d)
    ensures forall line <- lines :: Misses(line, domains)
  {
    hide IsBegin, IsSpace;
  }

  lemma {:induction false} ScanWithoutHits(lines: seq<string>, st: Scanned)
    requires forall line <- lines :: Misses(line, st.blocks.Keys)
    ensures Scan(lines, st) ==
      Scanned(st.text + Unlines(Kept(lines, st.inBlock)), EndsInBlock(lines, st.inBlock), st.blocks)
  {
    hide IsBegin, IsEnd, IsSpace;
    if lines == [] {
      assert st.text + "" == st.text;
    } else {
      assert Misses(lines[0], st.blocks.Keys);
      var next := ScanLine(st, lines[0]);
      ScanWithoutHits(lines[1..], next);
      if !IsMarker(lines[0]) && !st.inBlock {
        var more := Kept(lines[1..], false);
        assert ([lines[0]] + more)[1..] == more;
        assert st.text + (lines[0] + "\n") + Unlines(more) == st.text + (lines[0] + "\n" + Unlines(more));
      } else {
        assert [] + Kept(lines[1..], next.inBlock) == Kept(lines[1..], next.inBlock);
      }
    }
  }

  // ---- the lines of the blocks ----

  /** The lines between a block's markers. */
  function Body(conn: ConnectorSpec, d: string): seq<string> {
    Split(Interior(conn.mountDir, d, PluginText(conn.plugins)), '\n')
  }

  function BlockLines(conn: ConnectorSpec, d: string): seq<string> {
    [BEGIN + " " + d] + Body(conn, d) + [END + " " + d]
  }

  function FlatLines(conn: ConnectorSpec, order: seq<string>): seq<string> {
    if order == [] then [] else FlatLines(conn, order[..|order| - 1]) + BlockLines(conn, order[|order| - 1])
  }

  lemma NoNewline(prefix: string, d: string)
    requires prefix == BEGIN || prefix == END
    requires '\n' !in d
    ensures '\n' !in prefix + " " + d
  {
    assert '\n' !in BEGIN;
    assert '\n' !in END;
  }

  lemma SplitBlock(a: string, conn: ConnectorSpec, d: string)
    requires '\n' !in d
    ensures Split(a + ConfigBlock(conn, d), '\n') == Split(a, '\n') + BlockLines(conn, d)
  {
    var begin, end, inside := BEGIN + " " + d, END + " " + d, Interior(conn.mountDir, d, PluginText(conn.plugins));
    NoNewline(BEGIN, d);
    NoNewline(END, d);
    SplitBlockParts(a, begin, inside, end);
    assert a + ConfigBlock(conn, d) == a + ("\n" + begin + "\n" + (inside + "\n" + end));
  }

  lemma SplitBlockParts(a: string, begin: string, inside: string, end: string)
    requires '\n' !in begin && '\n' !in end
    ensures Split(a + ("\n" + begin + "\n" + (inside + "\n" + end)), '\n') ==
      Split(a, '\n') + ([begin] + Split(inside, '\n') + [end])
  {
    assert a + ("\n" + begin + "\n" + (inside + "\n" + end)) == a + "\n" + (begin + "\n" + (inside + "\n" + end));
    SplitAppend(a, '\n', begin + "\n" + (inside + "\n" + end));
    SplitFirst(begin, '\n', inside + "\n" + end);
    SplitAppend(inside, '\n', end);
    SplitAtom(end, '\n');
  }

  lemma {:induction false} SplitAppended(conn: ConnectorSpec, blocks: map<string, string>, order: seq<string>)
    requires forall d <- order :: d in blocks && IsBlockOf(blocks[d], conn, d)
    ensures Split(Appended(order, blocks), '\n') == [""] + FlatLines(conn, order)
  {
    if order != [] {
      var init, d := order[..|order| - 1], order[|order| - 1];
      SplitAppended(conn, blocks, init);
      var before, flat, block := Appended(init, blocks), FlatLines(conn, init), BlockLines(conn, d);
      SplitOneMore(before, flat, blocks[d], conn, d);
    }
  }

  predicate IsBlockOf(block: string, conn: ConnectorSpec, d: string) {
    '\n' !in d && block == ConfigBlock(conn, d)
  }

  lemma SplitOneMore(before: string, flat: seq<string>, block: string, conn: ConnectorSpec, d: string)
    requires Split(before, '\n') == [""] + flat && IsBlockOf(block, conn, d)
    ensures Split(before + block, '\n') == [""] + (flat + BlockLines(conn, d))
  {
    SplitBlock(before, conn, d);
    SplitMore(before, flat, block, BlockLines(conn, d));
  }

  lemma SplitMore(before: string, flat: seq<string>, block: string, lines: seq<string>)
    requires Split(before, '\n') == [""] + flat && Split(before + block, '\n') == Split(before, '\n') + lines
    ensures Split(before + block, '\n') == [""] + (flat + lines)
  {}

  lemma OrderMembers(order: seq<string>, domains: set<string>)
    requires IsOrderOf(order, domains)
    ensures forall d <- order :: d in domains
  {
    assert forall d <- order :: d in Members(order);
  }

  /** One pass line by line: the unmanaged lines, one blank line, then the blocks. */
  lemma SplicedLines(text: string, conn: ConnectorSpec, domains: set<string>, order: seq<string>)
    requires (forall line <- Split(text, '\n') :: Misses(line, domains)) && forall d <- domains :: '\n' !in d
    requires IsOrderOf(order, ScanText(text, Blocks(conn, domains)).blocks.Keys)
    ensures ScanText(text, Blocks(conn, domains)).blocks == Blocks(conn, domains)
    ensures IsOrderOf(order, domains)
    ensures Split(Spliced(text, Blocks(conn, domains), order), '\n') ==
      Unmanaged(text) + ([""] + FlatLines(conn, order))
  {
    var blocks := Blocks(conn, domains);
    ScanWithoutHits(Split(text, '\n'), Scanned("", false, blocks));
    assert "" + Unlines(Unmanaged(text)) == Unlines(Unmanaged(text));
    assert blocks.Keys == domains;
    OrderMembers(order, domains);
    SplitAppended(conn, blocks, order);
    KeptPlain(Split(text, '\n'), false);
    SplitUnlines(Unmanaged(text), Appended(order, blocks));
  }

  lemma GoodMisses(lines: seq<string>, domains: set<string>)
    requires (forall line <- lines :: DoubleSpaced(line)) && forall d <- domains :: GoodDomain(d)
    ensures (forall line <- lines :: Misses(line, domains)) && forall d <- domains :: '\n' !in d
  {
    assert IsSpace('\n');
    SpacedMisses(lines, domains);
  }

  // ---- the markers of a written block are read back ----

  lemma MarkerLine(prefix: string, d: string)
    requires prefix == BEGIN || prefix == END
    requires GoodDomain(d)
    ensures TrimSpace(prefix + " " + d) == prefix + " " + d
  {
    var line := prefix + " " + d;
    assert line[0] == '#' && line[|line| - 1] == d[|d| - 1];
    assert d[|d| - 1] in d;
    TrimKeepsEnds(line);
  }

  lemma BeginLine(d: string)
    requires GoodDomain(d)
    ensures IsBegin(BEGIN + " " + d) && BlockKey(BEGIN + " " + d) == " " + d
    ensures DoubleSpaced(BEGIN + " " + d)
  {
    MarkerLine(BEGIN, d);
    assert BEGIN + " " + d == BEGIN + (" " + d);
  }

  lemma EndLine(d: string)
    requires GoodDomain(d)
    ensures IsEnd(END + " " + d) && !IsBegin(END + " " + d) && EndKey(END + " " + d) == " " + d
  {
    MarkerLine(END, d);
    assert END + " " + d == END + (" " + d);
    assert END[|MARK|] == 'E' && BEGIN[|MARK|] == 'B';
  }

  /** A line whose first visible character is not '#', or whose second is not a space, is no marker. */
  lemma NotAMarker(line: string, skipped: string, rest: string)
    requires line == skipped + rest && (forall c <- skipped :: IsSpace(c))
    requires |rest| > 0 && !IsSpace(rest[0])
    requires rest[0] != '#' || |rest| == 1 || rest[1] != ' '
    ensures !IsMarker(line)
  {
    TrimSkipsLeft(skipped, rest);
    TrimRightPrefix(rest);
    assert BEGIN[0] == END[0] == '#' && BEGIN[1] == END[1] == ' ';
  }

  lemma {:induction false} SplitPlugins(first: string, plugins: seq<string>)
    requires '\n' !in first && !IsMarker(first)
    requires forall plugin <- plugins :: MarkerFree("\t" + plugin)
    ensures forall line <- Split(first + PluginText(plugins), '\n') :: !IsMarker(line)
  {
    if plugins == [] {
      assert first + "" == first;
      SplitAtom(first, '\n');
    } else {
      var init, last := plugins[..|plugins| - 1], plugins[|plugins| - 1];
      SplitPlugins(first, init);
      assert first + PluginText(plugins) == (first + PluginText(init)) + "\n" + ("\t" + last);
      SplitAppend(first + PluginText(init), '\n', "\t" + last);
      assert MarkerFree("\t" + last);
    }
  }

  lemma InteriorHead(d: string)
    requires SpaceFree(d)
    ensures '\n' !in d + ":53 {" && !IsMarker(d + ":53 {")
  {
    var head := d + ":53 {";
    assert IsSpace('\n') && IsSpace(' ');
    if d != "" {
      assert d[0] in d;
      assert |d| > 1 ==> d[1] in d;
    }
    assert head == "" + head;
    NotAMarker(head, "", head);
  }

  lemma InteriorFile(mountDir: string, d: string)
    requires '\n' !in mountDir && SpaceFree(d)
    ensures var file := "\tfile " + mountDir + "/" + ZoneFileKey(d); '\n' !in file && !IsMarker(file)
  {
    assert IsSpace('\n');
    assert '\n' !in EnsureFQDN(d);
    FileLine(mountDir, ZoneFileKey(d));
  }

  lemma FileLine(mountDir: string, key: string)
    requires '\n' !in mountDir && '\n' !in key
    ensures var file := "\tfile " + mountDir + "/" + key; '\n' !in file && !IsMarker(file)
  {
    var tail := "file " + mountDir + "/" + key;
    assert "\tfile " + mountDir + "/" + key == "\t" + tail;
    NotAMarker("\t" + tail, "\t", tail);
  }

  lemma InteriorPlain(conn: ConnectorSpec, d: string)
    requires SafeConnector(conn) && SpaceFree(d)
    ensures forall line <- Body(conn, d) :: !IsMarker(line)
  {
    hide IsMarker, ZoneFileKey, SpaceFree, PluginText, MarkerFree;
    var head, file := d + ":53 {", "\tfile " + conn.mountDir + "/" + ZoneFileKey(d);
    InteriorHead(d);
    InteriorFile(conn.mountDir, d);
    SplitPlugins(file, conn.plugins);
    InteriorLines(head, file + PluginText(conn.plugins));
    ClosingBrace();
  }

  lemma ClosingBrace()
    ensures !IsMarker("}")
  {
    NotAMarker("}", "", "}");
  }

  lemma InteriorLines(head: string, middle: string)
    requires '\n' !in head
    ensures Split(head + "\n" + (middle + "\n" + "}"), '\n') == [head] + (Split(middle, '\n') + ["}"])
  {
    SplitFirst(head, '\n', middle + "\n" + "}");
    SplitAppend(middle, '\n', "}");
    SplitAtom("}", '\n');
  }

  // ---- one block, then all of them ----

  /** What the block of a domain has to say: the server, its file, every plugin, the closing brace. */
  function BlockBody(conn: ConnectorSpec, d: string): seq<string> {
    [d + ":53 {", "\tfile " + conn.mountDir + "/" + ZoneFileKey(d)] + PluginLines(conn.plugins) + ["}"]
  }

  lemma BodyIs(conn: ConnectorSpec, d: string)
    requires '\n' !in conn.mountDir && '\n' !in d
    ensures Body(conn, d) == BlockBody(conn, d)
  {
    hide ZoneFileKey, PluginText, PluginLines;
    var head, file := d + ":53 {", "\tfile " + conn.mountDir + "/" + ZoneFileKey(d);
    KeyOneLine(d);
    FileLine(conn.mountDir, ZoneFileKey(d));
    PluginTextLines(file, conn.plugins);
    SplitAtom(file, '\n');
    InteriorLines(head, file + PluginText(conn.plugins));
  }

  lemma KeyOneLine(d: string)
    requires '\n' !in d
    ensures '\n' !in ZoneFileKey(d)
  {}

  function ManagedBlock(conn: ConnectorSpec, d: string): Managed {
    Managed(" " + d, BlockBody(conn, d))
  }

  function ManagedBlocks(conn: ConnectorSpec, order: seq<string>): seq<Managed> {
    if order == [] then []
    else ManagedBlocks(conn, order[..|order| - 1]) + [ManagedBlock(conn, order[|order| - 1])]
  }

  /** The block of a domain; for plugins of one line each, line by line. */
  ghost predicate IsBlock(conn: ConnectorSpec, d: string, block: Managed) {
    && block == Managed(" " + d, BlockBody(conn, d))
    && (OneLiners(conn.plugins) ==>
          block.body == [d + ":53 {", "\tfile " + conn.mountDir + "/" + ZoneFileKey(d)] +
                        seq(|conn.plugins|, i requires 0 <= i < |conn.plugins| => "\t" + conn.plugins[i]) + ["}"])
  }

  lemma BlockIs(conn: ConnectorSpec, d: string)
    ensures IsBlock(conn, d, ManagedBlock(conn, d))
  {
    if OneLiners(conn.plugins) {
      OneLineEach(conn.plugins);
    }
  }

  lemma {:induction false} BlockCount(conn: ConnectorSpec, order: seq<string>)
    ensures |ManagedBlocks(conn, order)| == |order|
  {
    if order != [] {
      BlockCount(conn, order[..|order| - 1]);
    }
  }

  lemma {:induction false} BlockAt(conn: ConnectorSpec, order: seq<string>, i: nat)
    requires i < |order| == |ManagedBlocks(conn, order)|
    ensures ManagedBlocks(conn, order)[i] == ManagedBlock(conn, order[i])
  {
    if i < |order| - 1 {
      BlockAt(conn, order[..|order| - 1], i);
    }
  }

  lemma LinesOfBlock(begin: string, inside: seq<string>, end: string, rest: seq<string>, done: seq<Managed>)
    requires IsBegin(begin) && IsEnd(end) && !IsBegin(end) && EndKey(end) == BlockKey(begin)
    requires forall line <- inside :: !IsMarker(line)
    ensures var lines := [begin] + inside + [end];
      && Kept(lines, false) == [] && !EndsInBlock(lines, false)
      && Read(lines + rest, None, done) == Read(rest, None, done + [Managed(BlockKey(begin), inside)])
  {
    hide IsBegin, IsEnd, BlockKey, EndKey;
    PlainLines(inside, true);
    assert ([begin] + inside + [end])[1..] == inside + [end];
    KeptAppend(inside, [end], true);
    var lines := [begin] + inside + [end] + rest;
    assert lines[0] == begin && lines[1..] == inside + ([end] + rest);
    ReadPlain(inside, [end] + rest, Some(Managed(BlockKey(begin), [])), done);
    assert [] + inside == inside;
    assert ([end] + rest)[1..] == rest;
  }

  lemma OneBlock(conn: ConnectorSpec, d: string, rest: seq<string>, done: seq<Managed>)
    requires SafeConnector(conn) && GoodDomain(d)
    ensures Kept(BlockLines(conn, d), false) == [] && !EndsInBlock(BlockLines(conn, d), false)
    ensures forall line <- BlockLines(conn, d) :: DoubleSpaced(line)
    ensures Read(BlockLines(conn, d) + rest, None, done) == Read(rest, None, done + [ManagedBlock(conn, d)])
  {
    var begin, inside, end := BEGIN + " " + d, Body(conn, d), END + " " + d;
    assert '\n' !in d by { assert IsSpace('\n'); }
    BodyIs(conn, d);
    BeginLine(d);
    EndLine(d);
    InteriorPlain(conn, d);
    LinesOfBlock(begin, inside, end, rest, done);
    forall line <- BlockLines(conn, d) ensures DoubleSpaced(line) {
      assert line == begin || line in inside || line == end;
    }
  }

  lemma {:induction false} AllBlocks(conn: ConnectorSpec, order: seq<string>)
    requires SafeConnector(conn) && forall d <- order :: GoodDomain(d)
    ensures Kept(FlatLines(conn, order), false) == [] && !EndsInBlock(FlatLines(conn, order), false)
    ensures forall line <- FlatLines(conn, order) :: DoubleSpaced(line)
  {
    if order != [] {
      var init, d := order[..|order| - 1], order[|order| - 1];
      AllBlocks(conn, init);
      OneBlock(conn, d, [], []);
      KeptAppend(FlatLines(conn, init), BlockLines(conn, d), false);
    }
  }

  lemma {:induction false} ReadAll(conn: ConnectorSpec, order: seq<string>, rest: seq<string>)
    requires SafeConnector(conn) && forall d <- order :: GoodDomain(d)
    ensures Read(FlatLines(conn, order) + rest, None, []) == Read(rest, None, ManagedBlocks(conn, order))
  {
    if order == [] {
      assert FlatLines(conn, order) + rest == rest;
    } else {
      var init, d := order[..|order| - 1], order[|order| - 1];
      var lines := BlockLines(conn, d);
      assert FlatLines(conn, order) + rest == FlatLines(conn, init) + (lines + rest);
      ReadAll(conn, init, lines + rest);
      OneBlock(conn, d, rest, ManagedBlocks(conn, init));
    }
  }

  // ---- which one-line domains have blocks that are recognised ----

  /**
   * White space around the domain is trimmed off the markers, and with it the last space of their
   * prefix if nothing else is left; and the block's own first line must not look like its end.
   */
  predicate Recognised(d: string) {
    TrimSpace(d) != "" && !(END <= TrimLeft(d))
  }

  lemma {:induction false} TrimLeftSplits(s: string)
    ensures exists k: nat :: k <= |s| && (forall c <- s[..k] :: IsSpace(c)) && TrimLeft(s) == s[k..]
    ensures TrimLeft(s) != "" ==> !IsSpace(TrimLeft(s)[0])
  {
    if s != "" && IsSpace(s[0]) {
      TrimLeftSplits(s[1..]);
      var k: nat :| k <= |s[1..]| && (forall c <- s[1..][..k] :: IsSpace(c)) && TrimLeft(s[1..]) == s[1..][k..];
      assert s[..k + 1] == [s[0]] + s[1..][..k] && s[k + 1..] == s[1..][k..];
    } else {
      assert s[..0] == "" && s[0..] == s;
    }
  }

  lemma {:induction false} TrimRightAfter(a: string, b: string)
    ensures TrimRight(b) != "" ==> TrimRight(a + b) == a + TrimRight(b)
    ensures TrimRight(b) == "" ==> TrimRight(a + b) == TrimRight(a)
  {
    if b == "" {
      assert a + b == a;
    } else if IsSpace(b[|b| - 1]) {
      assert (a + b)[..|a + b| - 1] == a + b[..|b| - 1];
      TrimRightAfter(a, b[..|b| - 1]);
    }
  }

  lemma {:induction false} TrimLeftBefore(a: string, b: string)
    ensures TrimLeft(a) != "" ==> TrimLeft(a + b) == TrimLeft(a) + b
    ensures TrimLeft(a) == "" ==> TrimLeft(a + b) == TrimLeft(b)
  {
    if a == "" {
      assert a + b == b;
    } else if IsSpace(a[0]) {
      assert (a + b)[1..] == a[1..] + b;
      TrimLeftBefore(a[1..], b);
    }
  }

  /** Trimming on both sides leaves nothing exactly if trimming on one side does. */
  lemma BlankEither(d: string)
    ensures TrimSpace(d) == "" <==> TrimLeft(d) == ""
    ensures TrimSpace(d) == "" <==> TrimRight(d) == ""
  {
    TrimLeftSplits(d);
    var k: nat :| k <= |d| && (forall c <- d[..k] :: IsSpace(c)) && TrimLeft(d) == d[k..];
    assert d == d[..k] + d[k..];
    TrimRightAfter(d[..k], d[k..]);
    AllSpace(d[..k]);
    if d[k..] != "" {
      VisibleStays(d[k..]);
    }
  }

  lemma {:induction false} AllSpace(s: string)
    requires forall c <- s :: IsSpace(c)
    ensures TrimRight(s) == ""
  {
    if s != "" {
      assert s[|s| - 1] in s;
      AllSpace(s[..|s| - 1]);
    }
  }

  lemma {:induction false} VisibleStays(s: string)
    requires s != "" && !IsSpace(s[0])
    ensures TrimRight(s) != ""
  {
    if IsSpace(s[|s| - 1]) {
      VisibleStays(s[..|s| - 1]);
    }
  }

  lemma MarkerTrimmed(prefix: string, d: string)
    requires prefix == BEGIN || prefix == END
    ensures TrimSpace(d) != "" ==> prefix <= TrimSpace(prefix + " " + d)
    ensures TrimSpace(d) == "" ==> !IsMarker(prefix + " " + d)
  {
    var line := prefix + " " + d;
    assert line[0] == '#' && TrimLeft(line) == line;
    BlankEither(d);
    TrimRightAfter(prefix + " ", d);
    if TrimSpace(d) == "" {
      assert line[..|prefix|] == prefix;
      EmptyMarker(prefix);
      assert prefix + " " + "" == prefix + " ";
    }
  }

  lemma EmptyMarker(prefix: string)
    requires prefix == BEGIN || prefix == END
    ensures var cut := TrimRight(prefix + " "); !(BEGIN <= cut) && !(END <= cut)
  {
    var line := prefix + " ";
    assert line[..|line| - 1] == prefix && prefix[|prefix| - 1] == ' ';
    var cut := prefix[..|prefix| - 1];
    assert cut[|cut| - 1] == '-' && cut != "";
    assert TrimRight(line) == TrimRight(prefix) == TrimRight(cut) == cut;
    MarkersDiffer();
  }

  lemma MarkersDiffer()
    ensures !(BEGIN <= END[..|END| - 1]) && !(END <= BEGIN[..|BEGIN| - 1])
    ensures forall line :: !(IsBegin(line) && IsEnd(line))
  {
    assert BEGIN[|MARK|] == 'B';
    assert END[|MARK|] == 'E';
    assert BEGIN[..|BEGIN| - 1][|MARK|] == 'B';
  }

  lemma PrefixBefore(prefix: string, left: string, tail: string)
    requires tail != "" && tail[0] !in prefix
    ensures prefix <= left + tail <==> prefix <= left
  {
    var whole := left + tail;
    assert whole[|left|] == tail[0];
    assert forall i :: 0 <= i < |prefix| ==> prefix[i] in prefix;
    assert |prefix| <= |left| ==> whole[..|prefix|] == left[..|prefix|];
  }

  lemma HeadTrimmed(d: string, tail: string)
    requires tail != "" && !IsSpace(tail[0]) && !IsSpace(tail[|tail| - 1])
    ensures TrimSpace(d + tail) == TrimLeft(d) + tail
  {
    hide IsSpace;
    assert TrimLeft(tail) == tail && TrimRight(tail) == tail;
    TrimLeftBefore(d, tail);
    TrimRightAfter(TrimLeft(d), tail);
    assert TrimLeft(d) == "" ==> TrimLeft(d) + tail == tail;
  }

  lemma HeadEnds(d: string)
    ensures IsEnd(d + ":53 {") <==> END <= TrimLeft(d)
    ensures TrimLeft(d) == "" ==> !IsMarker(d + ":53 {")
  {
    HeadTrimmed(d, ":53 {");
    NoColon();
    PrefixBefore(END, TrimLeft(d), ":53 {");
    PrefixBefore(BEGIN, TrimLeft(d), ":53 {");
  }

  lemma NoColon()
    ensures ':' !in BEGIN && ':' !in END && BEGIN != "" && END != ""
  {
    assert ':' !in MARK;
  }

  /** The lines of a block are its first line, some that are no markers, and the two markers around them. */
  lemma BodyShape(conn: ConnectorSpec, d: string) returns (inner: seq<string>)
    requires SafeConnector(conn) && '\n' !in d
    ensures inner != [] && (forall line <- inner :: !IsMarker(line))
    ensures Body(conn, d) == [d + ":53 {"] + inner
  {
    hide IsMarker, ZoneFileKey, PluginText, MarkerFree;
    var file := "\tfile " + conn.mountDir + "/" + ZoneFileKey(d);
    KeyOneLine(d);
    FileLine(conn.mountDir, ZoneFileKey(d));
    SplitPlugins(file, conn.plugins);
    inner := Split(file + PluginText(conn.plugins), '\n') + ["}"];
    InteriorLines(d + ":53 {", file + PluginText(conn.plugins));
    ClosingBrace();
  }

  lemma KeptShape(begin: string, head: string, inner: seq<string>, end: string)
    requires inner != [] && forall line <- inner :: !IsMarker(line)
    requires IsBegin(begin) && IsEnd(end) && !IsBegin(end)
    ensures var lines := [begin] + ([head] + inner) + [end];
      !EndsInBlock(lines, false) && (Kept(lines, false) == [] <==> IsBegin(head) || !IsEnd(head))
  {
    hide IsBegin, IsEnd;
    var open := IsBegin(head) || !IsEnd(head);
    var lines := [begin] + ([head] + inner) + [end];
    assert lines == [begin, head] + (inner + [end]);
    assert [begin, head][1..] == [head] && [head][1..] == [];
    KeptAppend([begin, head], inner + [end], false);
    KeptAppend(inner, [end], open);
    PlainLines(inner, open);
  }

  lemma KeptOfBlock(conn: ConnectorSpec, d: string)
    requires SafeConnector(conn) && '\n' !in d
    ensures !EndsInBlock(BlockLines(conn, d), false)
    ensures Kept(BlockLines(conn, d), false) == [] <==> Recognised(d)
  {
    hide IsBegin, IsEnd, Body, SafeConnector;
    var inner := BodyShape(conn, d);
    var begin, head, end := BEGIN + " " + d, d + ":53 {", END + " " + d;
    MarkerTrimmed(BEGIN, d);
    MarkerTrimmed(END, d);
    HeadEnds(d);
    MarkersDiffer();
    BlankEither(d);
    if TrimSpace(d) == "" {
      assert forall line <- BlockLines(conn, d) :: line == begin || line == head || line in inner || line == end;
      PlainLines(BlockLines(conn, d), false);
    } else {
      MarkersAre(d);
      KeptShape(begin, head, inner, end);
    }
  }

  lemma MarkersAre(d: string)
    requires TrimSpace(d) != ""
    ensures IsBegin(BEGIN + " " + d) && IsEnd(END + " " + d)
  {
    MarkerTrimmed(BEGIN, d);
    MarkerTrimmed(END, d);
  }

  lemma {:induction false} KeptOfBlocks(conn: ConnectorSpec, order: seq<string>)
    requires SafeConnector(conn) && forall d <- order :: '\n' !in d
    ensures !EndsInBlock(FlatLines(conn, order), false)
    ensures Kept(FlatLines(conn, order), false) == [] <==> forall d <- order :: Recognised(d)
  {
    hide Recognised, SafeConnector;
    if order != [] {
      var init, d := order[..|order| - 1], order[|order| - 1];
      assert order == init + [d];
      KeptOfBlocks(conn, init);
      KeptOfBlock(conn, d);
      KeptAppend(FlatLines(conn, init), BlockLines(conn, d), false);
    }
  }

  // ---- the laws ----

  lemma MarkerFreeDescends(base: string)
    requires MarkerFree(base)
    ensures Descends(base, base, 0)
  {
    PlainLines(Split(base, '\n'), false);
    assert Split(base, '\n') + seq(0, _ => "") == Split(base, '\n');
  }

  lemma KeptAfterPlain(kept: seq<string>, written: seq<string>)
    requires forall line <- kept :: !IsMarker(line)
    ensures Kept(kept + ([""] + written), false) == kept + [""] + Kept(written, false)
    ensures EndsInBlock(kept + ([""] + written), false) == EndsInBlock(written, false)
  {
    hide IsBegin, IsEnd;
    BlankLine();
    assert kept + ([""] + written) == (kept + [""]) + written;
    PlainLines(kept + [""], false);
    KeptAppend(kept + [""], written, false);
  }

  /** Every block is closed, and no marker can be looked up by a domain: any marker-free text, and any operator-written one. */
  predicate Tidy(text: string) {
    && !EndsInBlock(Split(text, '\n'), false)
    && forall line <- Split(text, '\n') :: DoubleSpaced(line)
  }

  lemma MarkerFreeTidy(text: string)
    requires MarkerFree(text)
    ensures Tidy(text) && Unmanaged(text) == Split(text, '\n')
  {
    hide IsMarker;
    MarkerFreeDescends(text);
    PlainLines(Split(text, '\n'), false);
  }

  /** On any such text one pass adds exactly one blank line outside the blocks, whatever the zones and the order. */
  lemma TidyPass(text: string, conn: ConnectorSpec, domains: set<string>, order: seq<string>)
    requires Tidy(text) && SafeConnector(conn) && forall d <- domains :: GoodDomain(d)
    requires IsOrderOf(order, ScanText(text, Blocks(conn, domains)).blocks.Keys)
    ensures ScanText(text, Blocks(conn, domains)).blocks == Blocks(conn, domains)
    ensures Tidy(Spliced(text, Blocks(conn, domains), order))
    ensures Unmanaged(Spliced(text, Blocks(conn, domains), order)) == Unmanaged(text) + [""]
  {
    hide SafeConnector, ScanText, Spliced, Unmanaged, IsBegin, IsEnd, DoubleSpaced, IsMarker, FlatLines, Kept,
      EndsInBlock;
    var after := Spliced(text, Blocks(conn, domains), order);
    var kept, written := Unmanaged(text), FlatLines(conn, order);
    GoodMisses(Split(text, '\n'), domains);
    SplicedLines(text, conn, domains, order);
    OrderMembers(order, domains);
    AllBlocks(conn, order);
    KeptLines(text);
    KeptAfterPlain(kept, written);
    BlankLine();
    assert kept + [""] + [] == kept + [""];
    UnmanagedIs(after);
    forall line <- Split(after, '\n') ensures DoubleSpaced(line) {
      assert line in kept || line == "" || line in written;
    }
  }

  /** One pass adds exactly one blank line outside the blocks, whatever the zones and the order. */
  lemma PassLaw(base: string, text: string, n: nat, conn: ConnectorSpec, domains: set<string>, order: seq<string>)
    requires Descends(base, text, n) && SafeConnector(conn) && forall d <- domains :: GoodDomain(d)
    requires IsOrderOf(order, ScanText(text, Blocks(conn, domains)).blocks.Keys)
    ensures ScanText(text, Blocks(conn, domains)).blocks == Blocks(conn, domains)
    ensures Descends(base, Spliced(text, Blocks(conn, domains), order), n + 1)
  {
    hide SafeConnector, ScanText, Spliced, Unmanaged, DoubleSpaced, EndsInBlock;
    TidyPass(text, conn, domains, order);
    assert Split(base, '\n') + seq(n, _ => "") + [""] == Split(base, '\n') + seq(n + 1, _ => "");
  }

  lemma UnmanagedIs(text: string)
    ensures Unmanaged(text) == Kept(Split(text, '\n'), false)
  {}

  lemma KeptLines(text: string)
    ensures forall line <- Unmanaged(text) :: !IsMarker(line) && DoubleSpaced(line)
  {
    KeptPlain(Split(text, '\n'), false);
  }

  lemma BlankLine()
    ensures !IsMarker("") && DoubleSpaced("")
  {}

  /**
   * The documentation asks of a domain only that it is present. For domains of one line the
   * one-blank-line law of a first pass holds exactly when none of them is blank or starts, after
   * white space, like the marker at the end of a block.
   */
  lemma FirstPassLawIff(text: string, conn: ConnectorSpec, domains: set<string>, order: seq<string>)
    requires MarkerFree(text) && SafeConnector(conn) && forall d <- domains :: '\n' !in d
    requires IsOrderOf(order, ScanText(text, Blocks(conn, domains)).blocks.Keys)
    ensures Unmanaged(Spliced(text, Blocks(conn, domains), order)) == Split(text, '\n') + [""]
      <==> forall d <- domains :: Recognised(d)
  {
    hide IsMarker, Recognised, SafeConnector, ScanText, Spliced;
    var kept, written := Split(text, '\n'), FlatLines(conn, order);
    PlainLines(kept, false);
    PlainMisses(kept, domains);
    SplicedLines(text, conn, domains, order);
    OrderMembers(order, domains);
    assert forall d <- domains :: d in order by { assert forall d <- domains :: d in Members(order); }
    KeptOfBlocks(conn, order);
    KeptAfterPlain(kept, written);
    UnmanagedIs(text);
    UnmanagedIs(Spliced(text, Blocks(conn, domains), order));
  }

  lemma PlainMisses(lines: seq<string>, domains: set<string>)
    requires forall line <- lines :: !IsMarker(line)
    ensures forall line <- lines :: Misses(line, domains)
  {}

  /** The generated Corefile holds exactly one well-formed block per zone domain, and no other. */
  lemma SpliceExact(text: string, conn: ConnectorSpec, domains: set<string>, order: seq<string>)
    requires Tidy(text) && SafeConnector(conn) && forall d <- domains :: GoodDomain(d)
    requires IsOrderOf(order, ScanText(text, Blocks(conn, domains)).blocks.Keys)
    ensures IsOrderOf(order, domains)
    ensures ReadBlocks(Spliced(text, Blocks(conn, domains), order)) == Some(ManagedBlocks(conn, order))
    ensures |ManagedBlocks(conn, order)| == |order|
    ensures forall i :: 0 <= i < |order| ==> IsBlock(conn, order[i], ManagedBlocks(conn, order)[i])
  {
    hide BlockBody, IsBlock;
    BlockCount(conn, order);
    forall i | 0 <= i < |order| ensures IsBlock(conn, order[i], ManagedBlocks(conn, order)[i]) {
      BlockAt(conn, order, i);
      BlockIs(conn, order[i]);
    }
    var kept, written := Unmanaged(text), FlatLines(conn, order);
    GoodMisses(Split(text, '\n'), domains);
    SplicedLines(text, conn, domains, order);
    OrderMembers(order, domains);
    KeptPlain(Split(text, '\n'), false);
    ReadAll(conn, order, []);
    ReadAfterPlain(kept, written, ManagedBlocks(conn, order));
  }

  lemma ReadAfterPlain(kept: seq<string>, written: seq<string>, blocks: seq<Managed>)
    requires forall line <- kept :: !IsMarker(line)
    requires Read(written + [], None, []) == Some(blocks)
    ensures Read(kept + ([""] + written), None, []) == Some(blocks)
  {
    BlankLine();
    assert kept + ([""] + written) == (kept + [""]) + (written + []);
    ReadPlain(kept + [""], written + [], None, []);
  }

  /** Two passes over the same zones differ only in one blank line and the order of the blocks. */
  lemma SecondPassAgrees(text: string, conn: ConnectorSpec, domains: set<string>, order: seq<string>, again: seq<string>)
    requires Tidy(text) && SafeConnector(conn) && forall d <- domains :: GoodDomain(d)
    requires IsOrderOf(order, ScanText(text, Blocks(conn, domains)).blocks.Keys)
    requires IsOrderOf(again, ScanText(Spliced(text, Blocks(conn, domains), order), Blocks(conn, domains)).blocks.Keys)
    ensures var first := Spliced(text, Blocks(conn, domains), order);
      var second := Spliced(first, Blocks(conn, domains), again);
      && Unmanaged(second) == Unmanaged(first) + [""]
      && ReadBlocks(first).Some? && ReadBlocks(second).Some?
      && (set m <- ReadBlocks(first).value) == (set m <- ReadBlocks(second).value)
      && |ReadBlocks(first).value| == |ReadBlocks(second).value| == |domains|
  {
    hide Spliced, ReadBlocks, ScanText, Blocks, Unmanaged, ManagedBlocks, Tidy;
    var first := Spliced(text, Blocks(conn, domains), order);
    TidyPass(text, conn, domains, order);
    TidyPass(first, conn, domains, again);
    SpliceExact(text, conn, domains, order);
    SpliceExact(first, conn, domains, again);
    SameBlocks(conn, domains, order);
    SameBlocks(conn, domains, again);
  }

  lemma SameBlocks(conn: ConnectorSpec, domains: set<string>, order: seq<string>)
    requires IsOrderOf(order, domains)
    ensures (set m <- ManagedBlocks(conn, order)) == (set d <- domains :: ManagedBlock(conn, d))
    ensures |ManagedBlocks(conn, order)| == |domains|
  {
    OrderMembers(order, domains);
    OrderSize(order, domains);
    BlockCount(conn, order);
    var blocks := ManagedBlocks(conn, order);
    forall m <- blocks ensures exists d <- domains :: m == ManagedBlock(conn, d) {
      var i :| 0 <= i < |blocks| && blocks[i] == m;
      BlockAt(conn, order, i);
      assert order[i] in domains;
    }
    forall d <- domains ensures ManagedBlock(conn, d) in blocks {
      assert d in Members(order);
      var i :| 0 <= i < |order| && order[i] == d;
      BlockAt(conn, order, i);
    }
  }

  lemma {:induction false} OrderSize(order: seq<string>, keys: set<string>)
    requires IsOrderOf(order, keys)
    ensures |order| == |keys|
  {
    if order != [] {
      var last := order[|order| - 1];
      assert last in Members(order);
      assert order == order[..|order| - 1] + [last];
      assert Members(order[..|order| - 1]) == keys - {last};
      OrderSize(order[..|order| - 1], keys - {last});
    }
  }

  // ---- whole runs of the splicer ----

  datatype Pass = Pass(conn: ConnectorSpec, domains: set<string>, order: seq<string>)

  predicate PassApplies(p: Pass, text: string) {
    && SafeConnector(p.conn)
    && (forall d <- p.domains :: GoodDomain(d))
    && IsOrderOf(p.order, ScanText(text, Blocks(p.conn, p.domains)).blocks.Keys)
  }

  predicate PassRun(texts: seq<string>, passes: seq<Pass>) {
    && |texts| == |passes| + 1
    && forall i :: 0 <= i < |passes| ==>
         && PassApplies(passes[i], texts[i])
         && texts[i + 1] == Spliced(texts[i], Blocks(passes[i].conn, passes[i].domains), passes[i].order)
  }

  lemma PassRunPrefix(texts: seq<string>, passes: seq<Pass>, k: nat)
    requires PassRun(texts, passes) && k <= |passes|
    ensures PassRun(texts[..k + 1], passes[..k])
  {
    forall i | 0 <= i < k
      ensures PassApplies(passes[..k][i], texts[..k + 1][i])
      ensures texts[..k + 1][i + 1] == Spliced(texts[i], Blocks(passes[i].conn, passes[i].domains), passes[i].order)
    {
      assert PassApplies(passes[i], texts[i]);
    }
  }

  /** From a marker-free Corefile, n passes leave the original lines followed by n blank lines. */
  lemma {:induction false} NPassLaw(texts: seq<string>, passes: seq<Pass>)
    requires PassRun(texts, passes) && MarkerFree(texts[0])
    ensures Descends(texts[0], texts[|passes|], |passes|)
  {
    if passes == [] {
      MarkerFreeDescends(texts[0]);
    } else {
      var k := |passes| - 1;
      PassRunPrefix(texts, passes, k);
      NPassLaw(texts[..k + 1], passes[..k]);
      var p := passes[k];
      assert PassApplies(p, texts[k]);
      PassLaw(texts[0], texts[k], k, p.conn, p.domains, p.order);
    }
  }

  /** In such a run the keyed lookup never finds a block: every block is dropped and appended again. */
  lemma LookupNeverHits(texts: seq<string>, passes: seq<Pass>, k: nat)
    requires PassRun(texts, passes) && MarkerFree(texts[0]) && k < |passes|
    ensures var blocks := Blocks(passes[k].conn, passes[k].domains);
      ScanText(texts[k], blocks).blocks == blocks
    ensures var p := passes[k];
      && IsOrderOf(p.order, p.domains)
      && ReadBlocks(texts[k + 1]) == Some(ManagedBlocks(p.conn, p.order))
  {
    PassRunPrefix(texts, passes, k);
    NPassLaw(texts[..k + 1], passes[..k]);
    var p := passes[k];
    assert PassApplies(p, texts[k]);
    PassLaw(texts[0], texts[k], k, p.conn, p.domains, p.order);
    SpliceExact(texts[k], p.conn, p.domains, p.order);
  }

  // ---- any Corefile, also with markers that are looked up ----

  /** What a pass writes while it scans: a line kept, or the block of a domain. */
  datatype Piece = Line(line: string) | Put(domain: string)

  function Render(pieces: seq<Piece>, table: map<string, string>): string {
    if pieces == [] then ""
    else (match pieces[0]
          case Line(line) => line + "\n"
          case Put(d) => if d in table then table[d] else "") + Render(pieces[1..], table)
  }

  function LinesIn(pieces: seq<Piece>): seq<string> {
    if pieces == [] then []
    else (match pieces[0] case Line(line) => [line] case Put(_) => []) + LinesIn(pieces[1..])
  }

  function PutsIn(pieces: seq<Piece>): seq<string> {
    if pieces == [] then []
    else (match pieces[0] case Line(_) => [] case Put(d) => [d]) + PutsIn(pieces[1..])
  }

  /** Some BEGIN line names the domain. */
  ghost predicate Named(lines: seq<string>, d: string) {
    exists line <- lines :: IsBegin(line) && BlockKey(line) == d
  }

  lemma {:induction false} SameRender(pieces: seq<Piece>, table: map<string, string>, key: string)
    requires key !in PutsIn(pieces)
    ensures Render(pieces, table - {key}) == Render(pieces, table)
  {
    if pieces != [] {
      SameRender(pieces[1..], table, key);
    }
  }

  lemma {:induction false} ScanPieces(lines: seq<string>, st: Scanned) returns (pieces: seq<Piece>)
    ensures Scan(lines, st).text == st.text + Render(pieces, st.blocks)
    ensures LinesIn(pieces) == Kept(lines, st.inBlock)
    ensures Distinct(PutsIn(pieces)) && Scan(lines, st).blocks == st.blocks - Members(PutsIn(pieces))
    ensures forall d :: d in PutsIn(pieces) <==> d in st.blocks && Named(lines, d)
  {
    hide IsBegin, IsEnd, BlockKey;
    if lines == [] {
      pieces := [];
      assert st.text + "" == st.text;
    } else {
      var line, rest := lines[0], lines[1..];
      var next := ScanLine(st, line);
      var later := ScanPieces(rest, next);
      assert lines == [line] + rest;
      assert forall d :: Named(lines, d) <==> (IsBegin(line) && BlockKey(line) == d) || Named(rest, d);
      if IsBegin(line) && BlockKey(line) in st.blocks {
        pieces := OnePut(st, BlockKey(line), later);
      } else if !IsBegin(line) && !IsEnd(line) && !st.inBlock {
        pieces := [Line(line)] + later;
        assert pieces[1..] == later;
        assert st.text + (line + "\n") + Render(later, st.blocks) == st.text + ((line + "\n") + Render(later, st.blocks));
        assert [] + PutsIn(later) == PutsIn(later);
      } else {
        pieces := later;
        assert [] + Kept(rest, next.inBlock) == Kept(rest, next.inBlock);
      }
    }
  }

  lemma OnePut(st: Scanned, key: string, later: seq<Piece>) returns (pieces: seq<Piece>)
    requires key in st.blocks && Distinct(PutsIn(later)) && key !in PutsIn(later)
    ensures LinesIn(pieces) == LinesIn(later) && PutsIn(pieces) == [key] + PutsIn(later) && Distinct(PutsIn(pieces))
    ensures st.text + st.blocks[key] + Render(later, st.blocks - {key}) == st.text + Render(pieces, st.blocks)
    ensures st.blocks - {key} - Members(PutsIn(later)) == st.blocks - Members(PutsIn(pieces))
  {
    pieces := [Put(key)] + later;
    assert pieces[1..] == later;
    SameRender(later, st.blocks, key);
    assert [] + LinesIn(later) == LinesIn(later);
    assert st.text + st.blocks[key] + Render(later, st.blocks) == st.text + (st.blocks[key] + Render(later, st.blocks));
    assert forall d :: d in Members([key] + PutsIn(later)) <==> d == key || d in Members(PutsIn(later));
  }

  /**
   * Whatever the Corefile holds, hand-written markers included: a pass keeps the lines outside
   * blocks in order, puts the block of a domain in place at the first BEGIN line that names it, if
   * there is one, and appends it otherwise; so every zone has exactly one block in what it writes.
   */
  lemma EveryBlockOnce(text: string, table: map<string, string>, order: seq<string>) returns (pieces: seq<Piece>)
    requires IsOrderOf(order, ScanText(text, table).blocks.Keys)
    ensures (forall d <- order :: d in table) && Spliced(text, table, order) == Render(pieces, table) + Appended(order, table)
    ensures LinesIn(pieces) == Unmanaged(text)
    ensures IsOrderOf(PutsIn(pieces) + order, table.Keys)
    ensures forall d <- table :: d in PutsIn(pieces) <==> Named(Split(text, '\n'), d)
  {
    hide Named, Render;
    pieces := ScanPieces(Split(text, '\n'), Scanned("", false, table));
    var left := ScanText(text, table).blocks;
    OrderMembers(order, left.Keys);
    AppendedSame(order, left, table);
    assert "" + Render(pieces, table) == Render(pieces, table);
    BothOrders(PutsIn(pieces), order, table);
  }

  lemma {:induction false} AppendedSame(order: seq<string>, left: map<string, string>, table: map<string, string>)
    requires forall d <- order :: d in left && d in table && left[d] == table[d]
    ensures Appended(order, left) == Appended(order, table)
  {
    if order != [] {
      AppendedSame(order[..|order| - 1], left, table);
    }
  }

  lemma BothOrders(puts: seq<string>, order: seq<string>, table: map<string, string>)
    requires Distinct(puts) && (forall d <- puts :: d in table) && IsOrderOf(order, (table - Members(puts)).Keys)
    ensures IsOrderOf(puts + order, table.Keys)
  {
    assert forall d :: d in order <==> d in Members(order);
    assert forall d :: d in puts <==> d in Members(puts);
    forall d ensures d in Members(puts + order) <==> d in table {
      assert d in puts + order <==> d in puts || d in order;
    }
    var both := puts + order;
    assert forall i :: 0 <= i < |puts| ==> both[i] in puts;
    assert forall i :: |puts| <= i < |both| ==> both[i] == order[i - |puts|] && both[i] in order;
    forall i, j | 0 <= i < j < |both| ensures both[i] != both[j] {
      if |puts| <= i {
        assert order[i - |puts|] != order[j - |puts|];
      }
    }
  }
}
