/** The edits the operator makes to the files of an ignition config: MTU settings, the machine
    OS URL and recompression. */
module IgnitionFiles {
  import opened Text
  import opened Escaping
  import EmptyObjects

  type Json = EmptyObjects.Json

  datatype File = File(
    path: string,
    mode: Option<int>,
    overwrite: Option<bool>,
    source: Option<Bytes>,
    compression: Option<string>)

  const BASE64_MARK: Bytes := ";base64,"
  const PLAIN_TEXT: Bytes := "data:text/plain,"
  const BARE_DATA: Bytes := "data:,"

  /** Compression and base64, which the program takes from libraries. */
  datatype Codec = Codec(
    gzip: Bytes -> Bytes,
    gunzip: Bytes -> Option<Bytes>,
    base64: Bytes -> Bytes,
    unbase64: Bytes -> Option<Bytes>)
  {
    /** Decoding undoes encoding; nothing else is known of either. */
    ghost predicate Faithful() {
      && (forall b: Bytes :: gunzip(gzip(b)) == Some(b))
      && (forall b: Bytes :: unbase64(base64(b)) == Some(b))
    }
  }

  // ----- What a file says -----

  datatype Reading = Raw(bytes: Bytes) | NotInline | Malformed

  function FromOption(decoded: Option<Bytes>): Reading {
    if decoded.Some? then Raw(decoded.value) else Malformed
  }

  /** A data URI as the program reads it: base64 after the first mark, or else query-escaped
      text after the first comma. */
  function Read(codec: Codec, source: Bytes): Reading {
    var mark, comma := Index(source, BASE64_MARK), Index(source, ",");
    if mark.Some? then
      IndexFound(source, BASE64_MARK);
      FromOption(codec.unbase64(source[mark.value + |BASE64_MARK|..]))
    else if HasPrefix(source, "data:") && comma.Some? then
      IndexFound(source, ",");
      FromOption(Unescape(source[comma.value + 1..]))
    else NotInline
  }

  /** Behind the first base64 mark, whatever stands before it, the rest is base64. */
  lemma ReadMarked(codec: Codec, head: Bytes, text: Bytes)
    requires Index(head + (";base64," + text), ";base64,") == Some(|head|)
    ensures Read(codec, head + (";base64," + text))
         == match codec.unbase64(text) { case Some(bytes) => Raw(bytes) case None => Malformed }
  {
    assert (head + (";base64," + text))[|head| + 8..] == text;
  }

  /** Without the mark, only a data URI with a comma is data. */
  lemma ReadElsewhere(codec: Codec, source: Bytes)
    requires Index(source, ";base64,").None? && (!HasPrefix(source, "data:") || Index(source, ",").None?)
    ensures Read(codec, source) == NotInline
  {
  }

  predicate Compressed(f: File) {
    f.compression.Some? && f.compression.value != ""
  }

  /** What is stored on the node for a file. */
  datatype Content = Nothing | Inline(bytes: Bytes) | Elsewhere(source: Bytes, compression: string) | Broken

  function ContentOf(codec: Codec, f: File): Content {
    if f.source.None? || f.source.value == [] then Nothing
    else
      match Read(codec, f.source.value)
      case Malformed => Broken
      case NotInline => Elsewhere(f.source.value, if Compressed(f) then f.compression.value else "")
      case Raw(bytes) =>
        if !Compressed(f) then Inline(bytes)
        else if f.compression.value == "gzip" then
          var plain := codec.gunzip(bytes);
          if plain.Some? then Inline(plain.value) else Broken
        else Elsewhere(f.source.value, f.compression.value)
  }

  // ----- Recompression -----

  /** The file after recompression, or nothing when its source cannot be decoded. */
  function Recompress(codec: Codec, f: File): Option<File> {
    if Compressed(f) || f.source.None? || f.source.value == [] then Some(f)
    else
      match Read(codec, f.source.value)
      case Malformed => None
      case NotInline => Some(f)
      case Raw(bytes) => Some(Gzipped(codec, f, bytes))
  }

  function Gzipped(codec: Codec, f: File, bytes: Bytes): File {
    f.(source := Some("data:" + (BASE64_MARK + codec.base64(codec.gzip(bytes)))), compression := Some("gzip"))
  }

  lemma {:induction false} ReadBase64(codec: Codec, text: Bytes)
    ensures Read(codec, "data:" + (BASE64_MARK + text)) == FromOption(codec.unbase64(text))
  {
    var tail := BASE64_MARK + text;
    assert tail[0..|BASE64_MARK|] == BASE64_MARK;
    IndexIs(tail, BASE64_MARK, 0);
    IndexAfterPrefix("data:", tail, BASE64_MARK);
    assert ("data:" + tail)[5 + |BASE64_MARK|..] == text;
  }

  /** Recompression keeps everything but the encoding, and does nothing the second time. */
  lemma {:induction false} RecompressKeepsContent(codec: Codec, f: File)
    requires codec.Faithful() && Recompress(codec, f).Some?
    ensures var g := Recompress(codec, f).value;
      && ContentOf(codec, g) == ContentOf(codec, f)
      && g.path == f.path && g.mode == f.mode && g.overwrite == f.overwrite
      && Recompress(codec, g) == Some(g)
  {
    if !Compressed(f) && f.source.Some? && f.source.value != [] {
      var reading := Read(codec, f.source.value);
      if reading.Raw? {
        ReadBase64(codec, codec.base64(codec.gzip(reading.bytes)));
      }
    }
  }

  /** Recompression fails only on a file that has no readable content. */
  lemma RecompressFailsIff(codec: Codec, f: File)
    ensures Recompress(codec, f).None? <==> !Compressed(f) && ContentOf(codec, f).Broken?
  {
  }

  ghost predicate SameContents(codec: Codec, before: seq<File>, after: seq<File>) {
    && |after| == |before|
    && forall k :: 0 <= k < |before| ==>
         && ContentOf(codec, after[k]) == ContentOf(codec, before[k])
         && after[k].path == before[k].path
         && after[k].mode == before[k].mode
         && after[k].overwrite == before[k].overwrite
  }

  /** The first `n` files are recompressed and the others are as they were. */
  ghost predicate RecompressedUpTo(codec: Codec, before: seq<File>, after: seq<File>, n: nat) {
    && n <= |before| == |after|
    && (forall k :: 0 <= k < n ==> Recompress(codec, before[k]) == Some(after[k]))
    && (forall k :: n <= k < |before| ==> after[k] == before[k])
  }

  lemma {:induction false} PartialRunKeepsContents(codec: Codec, before: seq<File>, after: seq<File>, n: nat)
    requires codec.Faithful() && RecompressedUpTo(codec, before, after, n)
    ensures SameContents(codec, before, after)
  {
    forall k | 0 <= k < n
      ensures ContentOf(codec, after[k]) == ContentOf(codec, before[k]) && after[k].path == before[k].path
           && after[k].mode == before[k].mode && after[k].overwrite == before[k].overwrite
    {
      RecompressKeepsContent(codec, before[k]);
    }
  }

  lemma {:induction false} SecondRunIsIdentity(codec: Codec, files: seq<File>, once: seq<File>, twice: seq<File>)
    requires codec.Faithful()
    requires RecompressedUpTo(codec, files, once, |files|) && RecompressedUpTo(codec, once, twice, |once|)
    ensures twice == once
  {
    forall k | 0 <= k < |files| ensures twice[k] == once[k] {
      RecompressKeepsContent(codec, files[k]);
      assert Recompress(codec, once[k]) == Some(twice[k]);
    }
  }

  /** A run over already recompressed files cannot fail. */
  lemma {:induction false} SecondRunSucceeds(codec: Codec, files: seq<File>, once: seq<File>, k: nat)
    requires codec.Faithful() && RecompressedUpTo(codec, files, once, |files|) && k < |once|
    ensures Recompress(codec, once[k]).Some?
  {
    RecompressKeepsContent(codec, files[k]);
  }

  // ----- Escaped text in a data URI -----

  function Head(kind: Bytes): Bytes {
    "data:" + kind + ","
  }

  lemma NoPart(s: string, part: string)
    requires part != [] && part[0] !in s
    ensures Index(s, part).None?
  {
    assert s + [] == s;
    IndexAfterPrefix(s, [], part);
  }

  lemma {:induction false} FirstComma(opening: Bytes, rest: Bytes)
    requires ',' !in opening
    ensures Index(opening + ("," + rest), ",") == Some(|opening|)
  {
    var tail: Bytes := "," + rest;
    assert tail[0..1] == ",";
    IndexIs(tail, ",", 0);
    IndexAfterPrefix(opening, tail, ",");
  }

  /** Without the base64 mark, what is read is what follows the first comma. */
  lemma {:induction false} ReadPlain(codec: Codec, opening: Bytes, rest: Bytes)
    requires ',' !in opening && HasPrefix(opening, "data:")
    requires Index(opening + ("," + rest), BASE64_MARK).None?
    ensures Read(codec, opening + ("," + rest)) == FromOption(Unescape(rest))
  {
    var source := opening + ("," + rest);
    FirstComma(opening, rest);
    assert source[0..5] == opening[0..5];
    assert source[|opening| + 1..] == rest;
  }

  /** Escaped text in a data URI reads as the text: it cannot contain the base64 mark or a comma. */
  lemma {:induction false} ReadEscaped(codec: Codec, kind: Bytes, text: Bytes)
    requires ',' !in kind && ';' !in kind
    ensures Read(codec, Head(kind) + Escape(text)) == Raw(text)
  {
    var opening: Bytes := "data:" + kind;
    var escaped := Escape(text);
    EscapeAlphabet(text);
    EscapeRoundTrip(text);
    var source := opening + ("," + escaped);
    assert Head(kind) + escaped == source;
    NoPart(source, BASE64_MARK);
    assert opening[0..5] == "data:";
    ReadPlain(codec, opening, escaped);
  }

  // ----- MTU -----

  const ETHERNET: Bytes := "[ethernet]\n"
  const INTERFACES: seq<Bytes> := ["p0", "p1", "pf0hpf", "pf1hpf"]

  function ConnectionPath(name: string): string {
    "/etc/NetworkManager/system-connections/" + name + ".nmconnection"
  }

  predicate ForFirstFunction(path: string) {
    HasSuffix(path, ConnectionPath("pf0vf0"))
  }

  function Decimal(n: nat): Bytes {
    if n < 10 then [(('0' as int) + n) as char] else Decimal(n / 10) + [(('0' as int) + n % 10) as char]
  }

  /** The number a text of digits stands for. */
  function Number(digits: Bytes): int {
    if digits == [] then 0
    else Number(digits[..|digits| - 1]) * 10 + (digits[|digits| - 1] as int - '0' as int)
  }

  lemma {:induction false} DecimalReads(n: nat)
    ensures Number(Decimal(n)) == n && Decimal(n) != []
    ensures forall i :: 0 <= i < |Decimal(n)| ==> '0' <= Decimal(n)[i] <= '9'
    ensures n > 0 ==> Decimal(n)[0] != '0'
  {
    if n >= 10 {
      DecimalReads(n / 10);
      assert Decimal(n)[..|Decimal(n)| - 1] == Decimal(n / 10);
    } else {
      assert Decimal(n)[..0] == [];
    }
  }

  function URLEncode(text: Bytes): Bytes {
    PLAIN_TEXT + Escape(text)
  }

  function MtuLine(mtu: nat): Bytes {
    "[ethernet]\nmtu=" + Decimal(mtu) + "\n"
  }

  function ConnectionText(name: Bytes, mtu: nat): Bytes {
    "[connection]\nid=" + name + "\ntype=ethernet\ninterface-name=" + name + "\n\n" + MtuLine(mtu)
  }

  function ConnectionFile(name: Bytes, mtu: nat): File {
    File(ConnectionPath(name), Some(0x180), Some(true), Some(URLEncode(ConnectionText(name, mtu))), None)
  }

  /** A file whose path ends in `suffix` has the first `p` in its source replaced. */
  function Patched(f: File, suffix: string, p: Bytes, q: Bytes): File {
    if HasSuffix(f.path, suffix) && f.source.Some? && f.source.value != [] then
      f.(source := Some(Edited(f.source.value, p, q)))
    else f
  }

  function AllPatched(files: seq<File>, suffix: string, p: Bytes, q: Bytes): (r: seq<File>)
    ensures |r| == |files|
  {
    seq(|files|, i requires 0 <= i < |files| => Patched(files[i], suffix, p, q))
  }

  /** The file of the first virtual function gets the MTU written into its escaped source. */
  function WithMtu(f: File, mtu: nat): File {
    Patched(f, ConnectionPath("pf0vf0"), Escape(ETHERNET), Escape(MtuLine(mtu)))
  }

  function AllWithMtu(files: seq<File>, mtu: nat): seq<File> {
    AllPatched(files, ConnectionPath("pf0vf0"), Escape(ETHERNET), Escape(MtuLine(mtu)))
  }

  function ConnectionFiles(n: nat, mtu: nat): (r: seq<File>)
    requires n <= |INTERFACES|
    ensures |r| == n
  {
    seq(n, i requires 0 <= i < n => ConnectionFile(INTERFACES[i], mtu))
  }

  lemma {:induction false} EditInURI(kind: Bytes, text: Bytes, p: Bytes, q: Bytes)
    requires '%' !in kind && StartsEscaped(p)
    ensures Edited(Head(kind) + Escape(text), Escape(p), Escape(q)) == Head(kind) + Escape(Edited(text, p, q))
  {
    assert Escape(p)[0] == '%';
    EditEscaped(text, p, q);
    ReplaceAfterPrefix(Head(kind), Escape(text), Escape(p), Escape(q));
    EditedReplacesFirst(Head(kind) + Escape(text), Escape(p), Escape(q));
  }

  /** Editing the escaped source writes the MTU into the text itself. */
  lemma {:induction false} MtuEditsText(f: File, kind: Bytes, text: Bytes, mtu: nat)
    requires '%' !in kind && ForFirstFunction(f.path)
    requires f.source == Some(Head(kind) + Escape(text))
    ensures WithMtu(f, mtu) == f.(source := Some(Head(kind) + Escape(Edited(text, ETHERNET, MtuLine(mtu)))))
  {
    EditInURI(kind, text, ETHERNET, MtuLine(mtu));
  }

  /** What the edit does to the text: one line is inserted behind the first section header. */
  lemma MtuInserted(before: Bytes, after: Bytes, mtu: nat)
    requires Index(before + "[ethernet]\n" + after, "[ethernet]\n") == Some(|before|)
    ensures Edited(before + "[ethernet]\n" + after, ETHERNET, MtuLine(mtu))
         == before + "[ethernet]\n" + ("mtu=" + Decimal(mtu) + "\n") + after
  {
    var text: Bytes := before + "[ethernet]\n" + after;
    assert text[..|before|] == before && text[|before| + 11..] == after;
    assert MtuLine(mtu) == "[ethernet]\n" + ("mtu=" + Decimal(mtu) + "\n");
  }

  /** A text without the section is left alone. */
  lemma MtuNeedsSection(text: Bytes, mtu: nat)
    requires Index(text, "[ethernet]\n").None?
    ensures Edited(text, ETHERNET, MtuLine(mtu)) == text
  {
  }

  /** A file that says `text` says the edited text afterwards. */
  lemma {:induction false} MtuEditsContent(codec: Codec, f: File, kind: Bytes, text: Bytes, mtu: nat)
    requires ',' !in kind && ';' !in kind && '%' !in kind && ForFirstFunction(f.path) && !Compressed(f)
    requires f.source == Some(Head(kind) + Escape(text))
    ensures ContentOf(codec, f) == Inline(text)
    ensures ContentOf(codec, WithMtu(f, mtu)) == Inline(Edited(text, ETHERNET, MtuLine(mtu)))
  {
    var edited := Edited(text, ETHERNET, MtuLine(mtu));
    MtuEditsText(f, kind, text, mtu);
    ReadEscaped(codec, kind, text);
    ReadEscaped(codec, kind, edited);
  }

  /** A written interface file says what it should. */
  lemma {:induction false} ConnectionFileContent(codec: Codec, name: Bytes, mtu: nat)
    ensures ContentOf(codec, ConnectionFile(name, mtu)) == Inline(ConnectionText(name, mtu))
  {
    assert Head("text/plain") == PLAIN_TEXT;
    ReadEscaped(codec, "text/plain", ConnectionText(name, mtu));
  }

  /** What is written for an interface: where, how, and which text. */
  lemma ConnectionFileIs(name: Bytes, mtu: nat)
    ensures ConnectionFile(name, mtu).path == "/etc/NetworkManager/system-connections/" + name + ".nmconnection"
    ensures ConnectionFile(name, mtu).mode == Some(6 * 64) && ConnectionFile(name, mtu).overwrite == Some(true)
    ensures ConnectionText(name, mtu)
         == "[connection]\nid=" + name + "\ntype=ethernet\ninterface-name=" + name + "\n\n[ethernet]\nmtu=" + Decimal(mtu) + "\n"
  {
    assert "\n\n" + "[ethernet]\nmtu=" == "\n\n[ethernet]\nmtu=";
    var head: Bytes := "[connection]\nid=" + name + "\ntype=ethernet\ninterface-name=" + name;
    assert ConnectionText(name, mtu) == head + ("\n\n" + "[ethernet]\nmtu=") + Decimal(mtu) + "\n";
  }

  /** The four interfaces, under their paths. */
  lemma ConnectionFilesAre(mtu: nat)
    ensures ConnectionFiles(|INTERFACES|, mtu)
         == [ConnectionFile("p0", mtu), ConnectionFile("p1", mtu), ConnectionFile("pf0hpf", mtu), ConnectionFile("pf1hpf", mtu)]
  {
  }

  // ----- Machine OS URL -----

  const ENCAPSULATED: string := "/etc/ignition-machine-config-encapsulated.json"

  /** The machine config text is decoded, edited and encoded again. */
  function WithText(f: File, text: Bytes): File {
    f.(source := Some(BARE_DATA + Escape(text)))
  }

  /** The edit of the machine config.  Parsing and printing JSON come from a library. */
  datatype OSEdit = OSEdit(decode: Bytes -> Option<Json>, encode: Json -> Bytes, url: string) {
    ghost predicate Faithful() {
      forall j: Json :: decode(encode(j)) == Some(j)
    }

    function SetURL(config: Json): Option<Json> {
      if config.Obj? && "spec" in config.fields && config.fields["spec"].Obj? then
        var spec := config.fields["spec"].fields;
        Some(EmptyObjects.Obj(config.fields["spec" := EmptyObjects.Obj(spec["osImageURL" := EmptyObjects.Scalar(url)])]))
      else None
    }

    /** No result when the text is not JSON with an object as its spec. */
    function Apply(text: Bytes): Option<Bytes> {
      var config := decode(text);
      if config.None? || SetURL(config.value).None? then None
      else Some(encode(SetURL(config.value).value))
    }
  }

  const SPEC: EmptyObjects.Step := EmptyObjects.Key("spec")
  const OS_IMAGE: EmptyObjects.Step := EmptyObjects.Key("osImageURL")

  /** The URL is set, whatever stood there is gone, and every other datum of the config stays. */
  lemma {:induction false} OnlyURLChanges(edit: OSEdit, text: Bytes, path: seq<EmptyObjects.Step>)
    requires edit.Faithful() && edit.Apply(text).Some?
    ensures edit.decode(text).Some? && edit.decode(edit.Apply(text).value).Some?
    ensures EmptyObjects.DatumAt(edit.decode(edit.Apply(text).value).value, path)
         == if path == [SPEC, OS_IMAGE] then EmptyObjects.Value(edit.url)
            else if [SPEC, OS_IMAGE] <= path then EmptyObjects.NoData
            else EmptyObjects.DatumAt(edit.decode(text).value, path)
  {
    var before := edit.decode(text).value;
    var after := edit.SetURL(before).value;
    assert edit.decode(edit.Apply(text).value) == Some(after);
    if path != [] && path[0] == SPEC {
      var rest := path[1..];
      var a, b := after.fields["spec"], before.fields["spec"];
      assert EmptyObjects.DatumAt(after, path) == EmptyObjects.DatumAt(a, rest);
      assert EmptyObjects.DatumAt(before, path) == EmptyObjects.DatumAt(b, rest);
      if rest != [] && rest[0] == OS_IMAGE {
        assert path == [SPEC, OS_IMAGE] + rest[1..];
        assert EmptyObjects.DatumAt(a, rest) == EmptyObjects.DatumAt(EmptyObjects.Scalar(edit.url), rest[1..]);
      }
    }
  }

  function WithMachineOS(f: File, edit: OSEdit): Option<File> {
    if f.source.None? || !HasPrefix(f.source.value, BARE_DATA) then None
    else
      var text := Unescape(f.source.value[|BARE_DATA|..]);
      if text.None? then None
      else
        var edited := edit.Apply(text.value);
        if edited.None? then None else Some(WithText(f, edited.value))
  }

  /** The edited machine config comes out of recompression byte for byte. */
  lemma {:induction false} MachineConfigSurvives(codec: Codec, f: File, text: Bytes)
    requires codec.Faithful() && !Compressed(f)
    ensures ContentOf(codec, WithText(f, text)) == Inline(text)
    ensures Recompress(codec, WithText(f, text)) == Some(Gzipped(codec, f, text))
    ensures ContentOf(codec, Gzipped(codec, f, text)) == Inline(text)
  {
    assert Head([]) == BARE_DATA;
    ReadEscaped(codec, [], text);
    RecompressKeepsContent(codec, WithText(f, text));
  }

  /** On text the program escaped before, the edit is an edit of the text. */
  lemma {:induction false} MachineOSEditsText(f: File, text: Bytes, edit: OSEdit)
    ensures WithMachineOS(WithText(f, text), edit)
         == if edit.Apply(text).None? then None else Some(WithText(f, edit.Apply(text).value))
  {
    EscapeRoundTrip(text);
    var source := BARE_DATA + Escape(text);
    assert source[0..|BARE_DATA|] == BARE_DATA;
    assert source[|BARE_DATA|..] == Escape(text);
  }

  // ----- The config -----

  method PatchFile(f: File, suffix: string, p: Bytes, q: Bytes) returns (g: File)
    ensures g == Patched(f, suffix, p, q)
  {
    g := f;
    if HasSuffix(f.path, suffix) && f.source.Some? && f.source.value != [] {
      g := f.(source := Some(Edited(f.source.value, p, q)));
    }
  }

  /** What the node finds after the edits: the machine config as edited, every other file of before as
      `patch` leaves it, and then the new files, with nothing left uncompressed. */
  ghost predicate EditsReach(codec: Codec, edit: OSEdit, before: seq<File>, after: seq<File>, k: nat,
                             patched: seq<File>, more: seq<File>) {
    && k < |before| == |patched| && |after| == |before| + |more|
    && WithMachineOS(before[k], edit).Some?
    && (!Compressed(before[k]) ==> ContentOf(codec, after[k]) == Inline(MachineConfig(before[k], edit)))
    && (forall j :: 0 <= j < |before| ==> after[j].path == before[j].path)
    && (forall j :: 0 <= j < |before| && j != k ==> ContentOf(codec, after[j]) == ContentOf(codec, patched[j]))
    && (forall i :: 0 <= i < |more| ==>
          ContentOf(codec, after[|before| + i]) == ContentOf(codec, more[i]) && after[|before| + i].path == more[i].path)
    && (forall j :: 0 <= j < |after| ==> Compressed(after[j]) || !ContentOf(codec, after[j]).Inline?)
  }

  /** After recompression no file holds its data uncompressed. */
  lemma {:induction false} NoPlainDataLeft(codec: Codec, before: seq<File>, after: seq<File>)
    requires RecompressedUpTo(codec, before, after, |before|)
    ensures forall j :: 0 <= j < |after| ==> Compressed(after[j]) || !ContentOf(codec, after[j]).Inline?
  {
    forall j | 0 <= j < |after| ensures Compressed(after[j]) || !ContentOf(codec, after[j]).Inline? {
      assert Recompress(codec, before[j]) == Some(after[j]);
    }
  }

  lemma {:induction false} EditsCompose(codec: Codec, edit: OSEdit, before: seq<File>, patched: seq<File>, more: seq<File>,
                                        after: seq<File>, k: nat)
    requires codec.Faithful()
    requires k < |before| == |patched| && WithMachineOS(before[k], edit).Some?
    requires forall j :: 0 <= j < |before| ==> patched[j].path == before[j].path
    requires RecompressedUpTo(codec, patched[k := WithMachineOS(before[k], edit).value] + more, after, |before| + |more|)
    ensures EditsReach(codec, edit, before, after, k, patched, more)
  {
    var edited := patched[k := WithMachineOS(before[k], edit).value] + more;
    if !Compressed(before[k]) {
      MachineConfigSurvives(codec, before[k], MachineConfig(before[k], edit));
    }
    PartialRunKeepsContents(codec, edited, after, |edited|);
    NoPlainDataLeft(codec, edited, after);
    assert edited[k] == WithMachineOS(before[k], edit).value;
    assert forall j :: 0 <= j < |before| && j != k ==> edited[j] == patched[j];
    assert forall i :: 0 <= i < |more| ==> edited[|before| + i] == more[i];
  }

  /** The machine config file is not among the patched ones, so the edits do not meet. */
  lemma PatchAndReplace(files: seq<File>, k: nat, f: File, suffix: string, p: Bytes, q: Bytes)
    requires k < |files| && f.path == files[k].path && !HasSuffix(f.path, suffix)
    ensures AllPatched(files[k := f], suffix, p, q) == AllPatched(files, suffix, p, q)[k := f]
    ensures forall j :: 0 <= j < |files| ==> AllPatched(files, suffix, p, q)[j].path == files[j].path
  {
  }

  function Touched(files: seq<File>, mtu: nat): seq<File> {
    if mtu == 1500 then files else AllWithMtu(files, mtu)
  }

  function Added(mtu: nat): seq<File> {
    if mtu == 1500 then [] else ConnectionFiles(|INTERFACES|, mtu)
  }

  /** The machine config text that the edit writes into `f`. */
  function MachineConfig(f: File, edit: OSEdit): Bytes
    requires WithMachineOS(f, edit).Some?
  {
    edit.Apply(Unescape(f.source.value[|BARE_DATA|..]).value).value
  }

  lemma EditsStayApart(files: seq<File>, k: nat, f: File, mtu: nat)
    requires k < |files| && files[k].path == ENCAPSULATED == f.path
    ensures |Touched(files, mtu)| == |files| && Touched(files[k := f], mtu) == Touched(files, mtu)[k := f]
    ensures forall j :: 0 <= j < |files| ==> Touched(files, mtu)[j].path == files[j].path
  {
    EncapsulatedIsOther();
    PatchAndReplace(files, k, f, ConnectionPath("pf0vf0"), Escape(ETHERNET), Escape(MtuLine(mtu)));
  }

  lemma EncapsulatedIsOther()
    ensures !HasSuffix(ENCAPSULATED, ConnectionPath("pf0vf0"))
  {
    assert |ENCAPSULATED| < |ConnectionPath("pf0vf0")|;
  }

  lemma PatchSpares(files: seq<File>, more: seq<File>, suffix: string, p: Bytes, q: Bytes)
    requires forall k :: 0 <= k < |more| ==> Patched(more[k], suffix, p, q) == more[k]
    ensures AllPatched(files + more, suffix, p, q) == AllPatched(files, suffix, p, q) + more
  {
  }

  lemma NewFilesKept(files: seq<File>, mtu: nat)
    ensures AllWithMtu(files + ConnectionFiles(|INTERFACES|, mtu), mtu)
         == AllWithMtu(files, mtu) + ConnectionFiles(|INTERFACES|, mtu)
  {
    var more := ConnectionFiles(|INTERFACES|, mtu);
    var suffix, p, q := ConnectionPath("pf0vf0"), Escape(ETHERNET), Escape(MtuLine(mtu));
    forall k | 0 <= k < |more| ensures Patched(more[k], suffix, p, q) == more[k] {
      ConnectionFilesKept(k, mtu);
    }
    PatchSpares(files, more, suffix, p, q);
  }

  lemma SuffixTells(before: string, after: string, a: string, b: string)
    requires |a| <= |b| && HasSuffix(before + a + after, before + b + after)
    ensures a == b
  {
    var s, t := before + a + after, before + b + after;
    assert |a| == |b| && s[0..|s|] == t;
    assert s[|before|..|before| + |a|] == a && t[|before|..|before| + |a|] == b;
  }

  /** The new files are not among those the second loop rewrites. */
  lemma ConnectionFilesKept(k: nat, mtu: nat)
    requires k < |INTERFACES|
    ensures WithMtu(ConnectionFile(INTERFACES[k], mtu), mtu) == ConnectionFile(INTERFACES[k], mtu)
  {
    var name := INTERFACES[k];
    assert |name| <= 6 && name != "pf0vf0" by {
      assert name[1] != "pf0vf0"[1] || name[3] != "pf0vf0"[3];
    }
    if HasSuffix(ConnectionPath(name), ConnectionPath("pf0vf0")) {
      SuffixTells("/etc/NetworkManager/system-connections/", ".nmconnection", name, "pf0vf0");
    }
  }

  class Config {
    var files: seq<File>

    method Patch(suffix: string, p: Bytes, q: Bytes)
      modifies this
      ensures files == AllPatched(old(files), suffix, p, q)
    {
      for i := 0 to |files|
        invariant |files| == |old(files)|
        invariant forall k :: 0 <= k < i ==> files[k] == Patched(old(files)[k], suffix, p, q)
        invariant forall k :: i <= k < |files| ==> files[k] == old(files)[k]
      {
        var g := PatchFile(files[i], suffix, p, q);
        files := files[i := g];
      }
    }

    method EnableMTU(mtu: nat)
      modifies this
      ensures files == AllWithMtu(old(files), mtu) + ConnectionFiles(|INTERFACES|, mtu)
    {
      for n := 0 to |INTERFACES|
        invariant files == old(files) + ConnectionFiles(n, mtu)
      {
        files := files + [ConnectionFile(INTERFACES[n], mtu)];
      }
      Patch(ConnectionPath("pf0vf0"), Escape(ETHERNET), Escape(MtuLine(mtu)));
      NewFilesKept(old(files), mtu);
    }

    /** On failure the files before the faulty one are already rewritten. */
    method GzipIgnitionFiles(codec: Codec) returns (ok: bool, ghost n: nat)
      modifies this
      ensures RecompressedUpTo(codec, old(files), files, n)
      ensures ok <==> n == |old(files)|
      ensures !ok ==> n < |old(files)| && Recompress(codec, old(files)[n]).None?
      ensures codec.Faithful() ==> SameContents(codec, old(files), files)
    {
      n := 0;
      ok := true;
      for i := 0 to |files|
        invariant ok && n == i
        invariant RecompressedUpTo(codec, old(files), files, i)
      {
        var f := files[i];
        if Compressed(f) {
        } else if f.source.None? || f.source.value == [] {
        } else {
          var reading := Read(codec, f.source.value);
          if reading.Malformed? {
            ok := false;
            if codec.Faithful() {
              PartialRunKeepsContents(codec, old(files), files, i);
            }
            return;
          }
          if reading.Raw? {
            files := files[i := Gzipped(codec, f, reading.bytes)];
          }
        }
        n := n + 1;
      }
      if codec.Faithful() {
        PartialRunKeepsContents(codec, old(files), files, n);
      }
    }

    /** Edits the first file with the machine config's path, or reports that it could not. */
    method ReplaceMachineOSURL(edit: OSEdit) returns (ok: bool, k: nat)
      modifies this
      ensures k <= |old(files)| && forall j :: 0 <= j < k ==> old(files)[j].path != ENCAPSULATED
      ensures k < |old(files)| ==> old(files)[k].path == ENCAPSULATED
      ensures ok <==> k < |old(files)| && WithMachineOS(old(files)[k], edit).Some?
      ensures files == if ok then old(files)[k := WithMachineOS(old(files)[k], edit).value] else old(files)
    {
      for i := 0 to |files|
        invariant files == old(files)
        invariant forall j :: 0 <= j < i ==> files[j].path != ENCAPSULATED
      {
        var f := files[i];
        if f.path == ENCAPSULATED {
          k := i;
          if f.source.None? || !HasPrefix(f.source.value, BARE_DATA) {
            return false, i;
          }
          var text := Unescape(f.source.value[|BARE_DATA|..]);
          if text.None? {
            return false, i;
          }
          var edited := edit.Apply(text.value);
          if edited.None? {
            return false, i;
          }
          files := files[i := WithText(f, edited.value)];
          return true, i;
        }
      }
      return false, |files|;
    }

    method SetMtu(mtu: nat)
      modifies this
      ensures files == Touched(old(files), mtu) + Added(mtu)
    {
      if mtu != 1500 {
        EnableMTU(mtu);
      }
    }

    /** The edits of the target config in the program's order.  The node receives the edited machine
        config byte for byte, the first virtual function's file with the MTU, the interface files,
        and every other file with the content it had. */
    method EditTarget(codec: Codec, edit: OSEdit, mtu: nat) returns (ok: bool, k: nat)
      requires codec.Faithful()
      modifies this
      ensures ok ==> k < |old(files)| && old(files)[k].path == ENCAPSULATED
      ensures ok ==> EditsReach(codec, edit, old(files), files, k, Touched(old(files), mtu), Added(mtu))
      ensures k <= |old(files)| && forall j :: 0 <= j < k ==> old(files)[j].path != ENCAPSULATED
      ensures !ok ==>
        || k == |old(files)| || WithMachineOS(old(files)[k], edit).None?
        || exists j :: 0 <= j < |files| && Recompress(codec, files[j]).None?
    {
      ok, k := ReplaceMachineOSURL(edit);
      if !ok {
        return;
      }
      SetMtu(mtu);
      EditsStayApart(old(files), k, WithMachineOS(old(files)[k], edit).value, mtu);
      ghost var n;
      ok, n := GzipIgnitionFiles(codec);
      if ok {
        EditsCompose(codec, edit, old(files), Touched(old(files), mtu), Added(mtu), files, k);
      }
    }
  }
}
