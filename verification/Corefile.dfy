/** The Corefile splicer: generateCorefileCM of internal/controller/dnsconnector_construction.go. */
module Corefile {
  import opened Text
  import opened Objects

  // Written as sums of short literals: the solver does not look far into a long one.
  const MARK := "# COREDNS " + "CONTROLLER " + "MANAGED BLOCK "
  const BEGIN := MARK + "BEGINNING " + "-- "
  const END := MARK + "END " + "-- "

  predicate IsBegin(line: string) {
    BEGIN <= TrimSpace(line)
  }

  predicate IsEnd(line: string) {
    END <= TrimSpace(line)
  }

  predicate IsMarker(line: string) {
    IsBegin(line) || IsEnd(line)
  }

  /** The text after the BEGIN prefix, which the scanner looks up in its block table. */
  function BlockKey(line: string): string
    requires IsBegin(line)
  {
    TrimSpace(line)[|BEGIN|..]
  }

  function EndKey(line: string): string
    requires IsEnd(line)
  {
    TrimSpace(line)[|END|..]
  }

  // ---- printing a block ----

  function PluginText(plugins: seq<string>): string {
    if plugins == [] then "" else PluginText(plugins[..|plugins| - 1]) + "\n\t" + plugins[|plugins| - 1]
  }

  function Interior(mountDir: string, domain: string, pluginString: string): string {
    (domain + ":53 {") + "\n" +
    (("\tfile " + mountDir + "/" + ZoneFileKey(domain) + pluginString) + "\n" + "}")
  }

  /** The Sprintf of one configBlock: it starts with a newline and ends without one. */
  function FormatBlock(mountDir: string, domain: string, pluginString: string): string {
    "\n" + (BEGIN + " " + domain) + "\n" + (Interior(mountDir, domain, pluginString) + "\n" + (END + " " + domain))
  }

  function ConfigBlock(conn: ConnectorSpec, domain: string): string {
    FormatBlock(conn.mountDir, domain, PluginText(conn.plugins))
  }

  // ---- scanning ----

  datatype Scanned = Scanned(text: string, inBlock: bool, blocks: map<string, string>)

  /** One line of the Corefile: a marker switches `inBlock`, any other line is kept outside a block. */
  function ScanLine(st: Scanned, line: string): Scanned {
    if IsBegin(line) then
      var key := BlockKey(line);
      if key in st.blocks then Scanned(st.text + st.blocks[key], true, st.blocks - {key})
      else st.(inBlock := true)
    else if IsEnd(line) then st.(inBlock := false)
    else if !st.inBlock then st.(text := st.text + (line + "\n"))
    else st
  }

  function Scan(lines: seq<string>, st: Scanned): Scanned {
    if lines == [] then st else Scan(lines[1..], ScanLine(st, lines[0]))
  }

  function ScanText(text: string, blocks: map<string, string>): Scanned {
    Scan(Split(text, '\n'), Scanned("", false, blocks))
  }

  /** The blocks left in the table, written in the order the map iteration takes. */
  function Appended(order: seq<string>, blocks: map<string, string>): string
    requires forall d <- order :: d in blocks
  {
    if order == [] then ""
    else Appended(order[..|order| - 1], blocks) + blocks[order[|order| - 1]]
  }

  function Members(order: seq<string>): set<string> {
    set d <- order
  }

  predicate Distinct(order: seq<string>) {
    forall i, j :: 0 <= i < j < |order| ==> order[i] != order[j]
  }

  predicate IsOrderOf(order: seq<string>, keys: set<string>) {
    Members(order) == keys && Distinct(order)
  }

  function Spliced(text: string, blocks: map<string, string>, order: seq<string>): string
    requires IsOrderOf(order, ScanText(text, blocks).blocks.Keys)
  {
    var scanned := ScanText(text, blocks);
    assert forall d <- order :: d in Members(order);
    scanned.text + Appended(order, scanned.blocks)
  }

  // ---- the zone ConfigMaps ----

  predicate ZoneEntryOk(cm: ConfigMap) {
    "DomainName" in cm.annotations && ZoneFileKey(cm.annotations["DomainName"]) in cm.data
  }

  function Domains(items: seq<ConfigMap>): set<string>
    requires forall cm <- items :: ZoneEntryOk(cm)
  {
    set cm | cm in items && ZoneEntryOk(cm) :: cm.annotations["DomainName"]
  }

  function Blocks(conn: ConnectorSpec, domains: set<string>): map<string, string> {
    map d | d in domains :: ConfigBlock(conn, d)
  }

  /** The lines of the plugin entries; an entry may hold several. */
  function PluginLines(plugins: seq<string>): seq<string> {
    if plugins == [] then [] else PluginLines(plugins[..|plugins| - 1]) + Split("\t" + plugins[|plugins| - 1], '\n')
  }

  lemma {:induction false} PluginTextLines(first: string, plugins: seq<string>)
    ensures Split(first + PluginText(plugins), '\n') == Split(first, '\n') + PluginLines(plugins)
  {
    hide Split;
    if plugins == [] {
      assert first + "" == first;
    } else {
      var init, last := plugins[..|plugins| - 1], plugins[|plugins| - 1];
      PluginTextLines(first, init);
      NextPlugin(first, PluginText(init), last);
    }
  }

  lemma NextPlugin(first: string, text: string, plugin: string)
    ensures Split(first + (text + "\n\t" + plugin), '\n') == Split(first + text, '\n') + Split("\t" + plugin, '\n')
  {
    hide Split;
    assert first + (text + "\n\t" + plugin) == (first + text) + "\n" + ("\t" + plugin);
    SplitAppend(first + text, '\n', "\t" + plugin);
  }

  predicate OneLiners(plugins: seq<string>) {
    forall plugin <- plugins :: '\n' !in plugin
  }

  lemma {:induction false} OneLineEach(plugins: seq<string>)
    requires OneLiners(plugins)
    ensures PluginLines(plugins) == seq(|plugins|, i requires 0 <= i < |plugins| => "\t" + plugins[i])
  {
    if plugins != [] {
      var init, last := plugins[..|plugins| - 1], plugins[|plugins| - 1];
      assert last in plugins;
      OneLineEach(init);
      SplitAtom("\t" + last, '\n');
    }
  }

  /** The plugin loop: each enabled plugin starts a tab-indented line, in the order of the list. */
  method PrintPlugins(plugins: seq<string>) returns (text: string)
    ensures text == PluginText(plugins)
    ensures OneLiners(plugins) ==>
      Split(text, '\n') == [""] + seq(|plugins|, i requires 0 <= i < |plugins| => "\t" + plugins[i])
  {
    text := "";
    for j := 0 to |plugins|
      invariant text == PluginText(plugins[..j])
    {
      text := text + "\n\t" + plugins[j];
      assert plugins[..j + 1][..j] == plugins[..j];
    }
    assert plugins[..|plugins|] == plugins;
    PluginTextLines("", plugins);
    assert "" + text == text;
    if OneLiners(plugins) {
      OneLineEach(plugins);
    }
  }

  lemma AddBlock(conn: ConnectorSpec, items: seq<ConfigMap>, i: nat)
    requires i < |items| && (forall cm <- items[..i] :: ZoneEntryOk(cm)) && ZoneEntryOk(items[i])
    ensures forall cm <- items[..i + 1] :: ZoneEntryOk(cm)
    ensures var d := items[i].annotations["DomainName"];
      Blocks(conn, Domains(items[..i + 1])) == Blocks(conn, Domains(items[..i]))[d := ConfigBlock(conn, d)]
  {
    assert items[..i + 1] == items[..i] + [items[i]];
    AddDomain(items[..i], items[i]);
    BlocksOfMore(conn, Domains(items[..i]), items[i].annotations["DomainName"]);
  }

  lemma AddDomain(items: seq<ConfigMap>, cm: ConfigMap)
    requires (forall c <- items :: ZoneEntryOk(c)) && ZoneEntryOk(cm)
    ensures forall c <- items + [cm] :: ZoneEntryOk(c)
    ensures Domains(items + [cm]) == Domains(items) + {cm.annotations["DomainName"]}
  {}

  lemma BlocksOfMore(conn: ConnectorSpec, domains: set<string>, d: string)
    ensures Blocks(conn, domains + {d}) == Blocks(conn, domains)[d := ConfigBlock(conn, d)]
  {}

  /** The loop over the zone ConfigMaps: a table from domain to block, later entries winning. */
  method BuildBlocks(conn: ConnectorSpec, items: seq<ConfigMap>) returns (r: Result<map<string, string>>)
    ensures r.Ok? <==> forall cm <- items :: ZoneEntryOk(cm)
    ensures r.Ok? ==> r.value == Blocks(conn, Domains(items))
  {
    var blocks: map<string, string> := map[];
    for i := 0 to |items|
      invariant forall cm <- items[..i] :: ZoneEntryOk(cm)
      invariant blocks == Blocks(conn, Domains(items[..i]))
    {
      var cm := items[i];
      if "DomainName" !in cm.annotations {
        assert !ZoneEntryOk(cm);
        return Err("configMap does not have a domain annotation");
      }
      var domain := cm.annotations["DomainName"];
      var pluginString := PrintPlugins(conn.plugins);
      if ZoneFileKey(domain) !in cm.data {
        assert !ZoneEntryOk(cm);
        return Err("configMap does not contain zonefile data");
      }
      var block := FormatBlock(conn.mountDir, domain, pluginString);
      AddBlock(conn, items, i);
      blocks := blocks[domain := block];
    }
    assert items[..|items|] == items;
    r := Ok(blocks);
  }

  /** The loop over the Corefile's lines: toggles `inBlock`, keeps the lines outside blocks. */
  method ScanCorefile(content: string, table: map<string, string>)
    returns (written: string, blocks: map<string, string>)
    ensures written == ScanText(content, table).text && blocks == ScanText(content, table).blocks
  {
    var lines := Split(content, '\n');
    var inBlock := false;
    written, blocks := "", table;
    for i := 0 to |lines|
      invariant Scan(lines[i..], Scanned(written, inBlock, blocks)) == ScanText(content, table)
    {
      var trimmed := TrimSpace(lines[i]);
      assert lines[i..][1..] == lines[i + 1..];
      if BEGIN <= trimmed {
        inBlock := true;
        var current := trimmed[|BEGIN|..];
        if current in blocks {
          written := written + blocks[current];
          blocks := blocks - {current};
        }
      } else if END <= trimmed {
        inBlock := false;
      } else if !inBlock {
        written := written + (lines[i] + "\n");
      }
    }
  }

  /** The loop over the leftover table, in whatever order the map is iterated. */
  method AppendLeftovers(blocks: map<string, string>) returns (text: string, order: seq<string>)
    ensures IsOrderOf(order, blocks.Keys) && text == Appended(order, blocks)
  {
    text, order := "", [];
    var left := blocks.Keys;
    while left != {}
      invariant left <= blocks.Keys && IsOrderOf(order, blocks.Keys - left)
      invariant (forall d <- order :: d in blocks) && text == Appended(order, blocks)
      decreases left
    {
      var domain :| domain in left;
      text := text + blocks[domain];
      GrowOrder(order, blocks.Keys - left, domain);
      assert (order + [domain])[..|order|] == order;
      order := order + [domain];
      left := left - {domain};
      assert blocks.Keys - left == Members(order);
    }
  }

  lemma GrowOrder(order: seq<string>, keys: set<string>, d: string)
    requires IsOrderOf(order, keys) && d !in keys
    ensures IsOrderOf(order + [d], keys + {d})
  {
    assert forall e <- order :: e in Members(order);
    assert forall e <- order + [d] :: e in order || e == d;
    assert forall e <- order :: e in order + [d];
    assert d in order + [d];
  }

  /** The splice itself; `order` is the order in which the leftover table was iterated. */
  method GenerateCorefileCM(conn: ConnectorSpec, core: ConfigMap, items: seq<ConfigMap>)
    returns (r: Result<ConfigMap>, order: seq<string>)
    ensures r.Ok? <==> conn.corefileKey in core.data && forall cm <- items :: ZoneEntryOk(cm)
    ensures r.Ok? ==>
      var text, blocks := core.data[conn.corefileKey], Blocks(conn, Domains(items));
      && IsOrderOf(order, ScanText(text, blocks).blocks.Keys)
      && r.value == core.(data := core.data[conn.corefileKey := Spliced(text, blocks, order)])
  {
    order := [];
    if conn.corefileKey !in core.data {
      return Err("key not found in CoreDNS ConfigMap"), order;
    }
    var built := BuildBlocks(conn, items);
    if built.Err? {
      return Err(built.message), order;
    }
    var written, left := ScanCorefile(core.data[conn.corefileKey], built.value);
    var appended;
    appended, order := AppendLeftovers(left);
    r := Ok(core.(data := core.data[conn.corefileKey := written + appended]));
  }
}
