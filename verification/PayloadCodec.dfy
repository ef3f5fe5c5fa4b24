/**
  The task payload, its body of five fixed fields and eight optional commands,
  and the checksummed frame around that body. The checksum is a parameter: the
  results hold for every function with 32-byte results.
 */
module PayloadCodec {
  import opened Basics
  import opened QtStream

  datatype Add = Add(
    archive_path: QString, archive_type: QString, update_mode: QString, raw_update_switch: QString,
    raw_update_switches: seq<QString>, path_mode: QString, create_sfx: bool, share_for_write: bool,
    delete_after_compressing: bool, send_by_email: bool, send_by_email_remove_after: bool,
    send_by_email_address: QString, compression_level: QString, method_value: QString,
    dictionary_size: QString, word_size: QString, solid_block_size: QString, thread_count: QString,
    volume_size: QString, password: QString, encrypt_headers_defined: bool, encrypt_headers: bool,
    encryption_method: QString, extra_parameters: seq<QString>, input_paths: seq<QString>)

  datatype Extract = Extract(
    output_dir: QString, split_dest_enabled: bool, split_dest_name: QString, overwrite_switch: QString,
    archive_type: QString, eliminate_root_duplication: bool, path_remaps: seq<Remap>,
    restore_file_security: bool, zone_id_mode: QString, password: QString, archive_inputs: seq<QString>)

  datatype ArchiveExport = ArchiveExport(
    root_archive_path: QString, root_archive_type: QString, nested_archive_entries: seq<QString>,
    archive_entry_paths: seq<QString>, output_dir: QString, overwrite_mode: QString, path_mode: QString,
    eliminate_root_duplication: bool, path_remaps: seq<Remap>, restore_file_security: bool,
    zone_id_mode: QString, password: QString)

  datatype Test = Test(archive_inputs: seq<QString>)

  datatype Hash = Hash(hash_method: QString, input_paths: seq<QString>)

  datatype Benchmark = Benchmark(
    method_value: QString, dictionary_size: QString, thread_count: QString, operands: seq<QString>)

  datatype Open = Open(
    archive_path: QString, archive_type: QString, nested_archive_entries: seq<QString>, entry_path: QString)

  datatype Cli = Cli(argv: seq<QString>, working_dir: QString)

  datatype Payload = Payload(
    command: UInt32, show_dialog: bool, refresh_after_finish: bool, complete_on_claim: bool,
    caption: QString, add: Option<Add>, extract: Option<Extract>, test: Option<Test>, hash: Option<Hash>,
    benchmark: Option<Benchmark>, open: Option<Open>, archive_export: Option<ArchiveExport>,
    cli: Option<Cli>)

  // An optional command: absent, or the fields of its record.
  type Section = Option<List<Field>>

  // ---------- what each writer puts on the stream, in order ----------

  function AddSection(o: Option<Add>): Section {
    if o.None? then None else
    var p := o.value;
    Some(Then(FString(p.archive_path), Then(FString(p.archive_type), Then(FString(p.update_mode),
    Then(FString(p.raw_update_switch), Then(FList(p.raw_update_switches), Then(FString(p.path_mode),
    Then(FBool(p.create_sfx), Then(FBool(p.share_for_write), Then(FBool(p.delete_after_compressing),
    Then(FBool(p.send_by_email), Then(FBool(p.send_by_email_remove_after),
    Then(FString(p.send_by_email_address), Then(FString(p.compression_level), Then(FString(p.method_value),
    Then(FString(p.dictionary_size), Then(FString(p.word_size), Then(FString(p.solid_block_size),
    Then(FString(p.thread_count), Then(FString(p.volume_size), Then(FString(p.password),
    Then(FBool(p.encrypt_headers_defined), Then(FBool(p.encrypt_headers), Then(FString(p.encryption_method),
    Then(FList(p.extra_parameters), Then(FList(p.input_paths), Nil))))))))))))))))))))))))))
  }

  function ExtractSection(o: Option<Extract>): Section {
    if o.None? then None else
    var p := o.value;
    Some(Then(FString(p.output_dir), Then(FBool(p.split_dest_enabled), Then(FString(p.split_dest_name),
    Then(FString(p.overwrite_switch), Then(FString(p.archive_type), Then(FBool(p.eliminate_root_duplication),
    Then(FRemaps(p.path_remaps), Then(FBool(p.restore_file_security), Then(FString(p.zone_id_mode),
    Then(FString(p.password), Then(FList(p.archive_inputs), Nil))))))))))))
  }

  function TestSection(o: Option<Test>): Section {
    if o.None? then None else
    var p := o.value;
    Some(Then(FList(p.archive_inputs), Nil))
  }

  function HashSection(o: Option<Hash>): Section {
    if o.None? then None else
    var p := o.value;
    Some(Then(FString(p.hash_method), Then(FList(p.input_paths), Nil)))
  }

  function BenchmarkSection(o: Option<Benchmark>): Section {
    if o.None? then None else
    var p := o.value;
    Some(Then(FString(p.method_value), Then(FString(p.dictionary_size), Then(FString(p.thread_count),
    Then(FList(p.operands), Nil)))))
  }

  function OpenSection(o: Option<Open>): Section {
    if o.None? then None else
    var p := o.value;
    Some(Then(FString(p.archive_path), Then(FString(p.archive_type), Then(FList(p.nested_archive_entries),
    Then(FString(p.entry_path), Nil)))))
  }

  function ArchiveExportSection(o: Option<ArchiveExport>): Section {
    if o.None? then None else
    var p := o.value;
    Some(Then(FString(p.root_archive_path), Then(FString(p.root_archive_type), Then(FList(p.nested_archive_entries),
    Then(FList(p.archive_entry_paths), Then(FString(p.output_dir), Then(FString(p.overwrite_mode),
    Then(FString(p.path_mode), Then(FBool(p.eliminate_root_duplication), Then(FRemaps(p.path_remaps),
    Then(FBool(p.restore_file_security), Then(FString(p.zone_id_mode), Then(FString(p.password),
    Nil)))))))))))))
  }

  function CliSection(o: Option<Cli>): Section {
    if o.None? then None else
    var p := o.value;
    Some(Then(FList(p.argv), Then(FString(p.working_dir), Nil)))
  }

  function HeadFields(p: Payload): List<Field> {
    Then(FUInt32(p.command), Then(FBool(p.show_dialog), Then(FBool(p.refresh_after_finish),
    Then(FBool(p.complete_on_claim), Then(FString(p.caption), Nil)))))
  }

  // ---------- what each reader asks of the stream, in order, and how it fills the record ----------

  const ADD_KINDS: List<Kind> :=
    Cons(KString, Cons(KString, Cons(KString, Cons(KString, Cons(KList, Cons(KString, Cons(KBool, Cons(KBool,
    Cons(KBool, Cons(KBool, Cons(KBool, Cons(KString, Cons(KString, Cons(KString, Cons(KString, Cons(KString,
    Cons(KString, Cons(KString, Cons(KString, Cons(KString, Cons(KBool, Cons(KBool, Cons(KString, Cons(KList,
    Cons(KList, Nil)))))))))))))))))))))))))

  function AddOf(s: Section): Option<Add> {
    match s
    case Some(Cons(FString(x0), Cons(FString(x1), Cons(FString(x2), Cons(FString(x3), Cons(FList(x4),
    Cons(FString(x5), Cons(FBool(x6), Cons(FBool(x7), Cons(FBool(x8), Cons(FBool(x9), Cons(FBool(x10),
    Cons(FString(x11), Cons(FString(x12), Cons(FString(x13), Cons(FString(x14), Cons(FString(x15),
    Cons(FString(x16), Cons(FString(x17), Cons(FString(x18), Cons(FString(x19), Cons(FBool(x20),
    Cons(FBool(x21), Cons(FString(x22), Cons(FList(x23), Cons(FList(x24), Nil)))))))))))))))))))))))))) =>
      Some(Add(x0, x1, x2, x3, x4, x5, x6, x7, x8, x9, x10, x11, x12, x13, x14, x15, x16, x17, x18, x19, x20,
      x21, x22, x23, x24))
    case _ => None
  }

  const EXTRACT_KINDS: List<Kind> :=
    Cons(KString, Cons(KBool, Cons(KString, Cons(KString, Cons(KString, Cons(KBool, Cons(KRemaps, Cons(KBool,
    Cons(KString, Cons(KString, Cons(KList, Nil)))))))))))

  function ExtractOf(s: Section): Option<Extract> {
    match s
    case Some(Cons(FString(x0), Cons(FBool(x1), Cons(FString(x2), Cons(FString(x3), Cons(FString(x4),
    Cons(FBool(x5), Cons(FRemaps(x6), Cons(FBool(x7), Cons(FString(x8), Cons(FString(x9), Cons(FList(x10),
    Nil)))))))))))) =>
      Some(Extract(x0, x1, x2, x3, x4, x5, x6, x7, x8, x9, x10))
    case _ => None
  }

  const TEST_KINDS: List<Kind> :=
    Cons(KList, Nil)

  function TestOf(s: Section): Option<Test> {
    match s
    case Some(Cons(FList(x0), Nil)) =>
      Some(Test(x0))
    case _ => None
  }

  const HASH_KINDS: List<Kind> :=
    Cons(KString, Cons(KList, Nil))

  function HashOf(s: Section): Option<Hash> {
    match s
    case Some(Cons(FString(x0), Cons(FList(x1), Nil))) =>
      Some(Hash(x0, x1))
    case _ => None
  }

  const BENCHMARK_KINDS: List<Kind> :=
    Cons(KString, Cons(KString, Cons(KString, Cons(KList, Nil))))

  function BenchmarkOf(s: Section): Option<Benchmark> {
    match s
    case Some(Cons(FString(x0), Cons(FString(x1), Cons(FString(x2), Cons(FList(x3), Nil))))) =>
      Some(Benchmark(x0, x1, x2, x3))
    case _ => None
  }

  const OPEN_KINDS: List<Kind> :=
    Cons(KString, Cons(KString, Cons(KList, Cons(KString, Nil))))

  function OpenOf(s: Section): Option<Open> {
    match s
    case Some(Cons(FString(x0), Cons(FString(x1), Cons(FList(x2), Cons(FString(x3), Nil))))) =>
      Some(Open(x0, x1, x2, x3))
    case _ => None
  }

  const ARCHIVE_EXPORT_KINDS: List<Kind> :=
    Cons(KString, Cons(KString, Cons(KList, Cons(KList, Cons(KString, Cons(KString, Cons(KString, Cons(KBool,
    Cons(KRemaps, Cons(KBool, Cons(KString, Cons(KString, Nil))))))))))))

  function ArchiveExportOf(s: Section): Option<ArchiveExport> {
    match s
    case Some(Cons(FString(x0), Cons(FString(x1), Cons(FList(x2), Cons(FList(x3), Cons(FString(x4),
    Cons(FString(x5), Cons(FString(x6), Cons(FBool(x7), Cons(FRemaps(x8), Cons(FBool(x9), Cons(FString(x10),
    Cons(FString(x11), Nil))))))))))))) =>
      Some(ArchiveExport(x0, x1, x2, x3, x4, x5, x6, x7, x8, x9, x10, x11))
    case _ => None
  }

  const CLI_KINDS: List<Kind> :=
    Cons(KList, Cons(KString, Nil))

  function CliOf(s: Section): Option<Cli> {
    match s
    case Some(Cons(FList(x0), Cons(FString(x1), Nil))) =>
      Some(Cli(x0, x1))
    case _ => None
  }

  const HEAD_KINDS: List<Kind> := Cons(KUInt32, Cons(KBool, Cons(KBool, Cons(KBool, Cons(KString, Nil)))))

  ghost predicate SectionFits(s: Section, ks: List<Kind>) {
    s.Some? ==> KindsOf(s.value) == ks
  }

  // ---------- each reader's order is its writer's ----------

  lemma AddOrderAgrees(o: Option<Add>)
    ensures SectionFits(AddSection(o), ADD_KINDS) && AddOf(AddSection(o)) == o
  {}

  lemma ExtractOrderAgrees(o: Option<Extract>)
    ensures SectionFits(ExtractSection(o), EXTRACT_KINDS) && ExtractOf(ExtractSection(o)) == o
  {}

  lemma TestOrderAgrees(o: Option<Test>)
    ensures SectionFits(TestSection(o), TEST_KINDS) && TestOf(TestSection(o)) == o
  {}

  lemma HashOrderAgrees(o: Option<Hash>)
    ensures SectionFits(HashSection(o), HASH_KINDS) && HashOf(HashSection(o)) == o
  {}

  lemma BenchmarkOrderAgrees(o: Option<Benchmark>)
    ensures SectionFits(BenchmarkSection(o), BENCHMARK_KINDS) && BenchmarkOf(BenchmarkSection(o)) == o
  {}

  lemma OpenOrderAgrees(o: Option<Open>)
    ensures SectionFits(OpenSection(o), OPEN_KINDS) && OpenOf(OpenSection(o)) == o
  {}

  lemma ArchiveExportOrderAgrees(o: Option<ArchiveExport>)
    ensures SectionFits(ArchiveExportSection(o), ARCHIVE_EXPORT_KINDS) && ArchiveExportOf(ArchiveExportSection(o)) == o
  {}

  lemma CliOrderAgrees(o: Option<Cli>)
    ensures SectionFits(CliSection(o), CLI_KINDS) && CliOf(CliSection(o)) == o
  {}

  // ---------- the body: a head, then eight sections that may be absent ----------

  function Sections(p: Payload): List<Section> {
    Cons(AddSection(p.add), Cons(ExtractSection(p.extract), Cons(TestSection(p.test), Cons(HashSection(p.hash),
    Cons(BenchmarkSection(p.benchmark), Cons(OpenSection(p.open),
    Cons(ArchiveExportSection(p.archive_export), Cons(CliSection(p.cli), Nil))))))))
  }

  const SECTION_KINDS: List<List<Kind>> :=
    Cons(ADD_KINDS, Cons(EXTRACT_KINDS, Cons(TEST_KINDS, Cons(HASH_KINDS, Cons(BENCHMARK_KINDS,
    Cons(OPEN_KINDS, Cons(ARCHIVE_EXPORT_KINDS, Cons(CLI_KINDS, Nil))))))))

  function PayloadOf(head: List<Field>, ss: List<Section>): Option<Payload> {
    match (head, ss)
    case (Cons(FUInt32(command), Cons(FBool(dialog), Cons(FBool(refresh), Cons(FBool(complete),
          Cons(FString(caption), Nil))))),
          Cons(add, Cons(extract, Cons(test, Cons(hash, Cons(benchmark, Cons(open, Cons(export_, Cons(cli,
          Nil))))))))) =>
      Some(Payload(command, dialog, refresh, complete, caption, AddOf(add),
                   ExtractOf(extract), TestOf(test), HashOf(hash),
                   BenchmarkOf(benchmark), OpenOf(open),
                   ArchiveExportOf(export_), CliOf(cli)))
    case _ => None
  }

  function EncSection(s: Section): seq<Byte> {
    match s
    case None => EncField(FBool(false))
    case Some(fs) => EncField(FBool(true)) + EncFields(fs)
  }

  function EncSections(ss: List<Section>): seq<Byte> {
    match ss
    case Nil => []
    case Cons(s, rest) => EncSection(s) + EncSections(rest)
  }

  function EncBody(p: Payload): seq<Byte> {
    EncFields(HeadFields(p)) + EncSections(Sections(p))
  }

  function DecSection(ks: List<Kind>, d: seq<Byte>): Parsed<Section> {
    match DecBool(d)
    case None => None
    case Some((present, d1)) =>
      if !present then Some((None, d1))
      else match DecFields(ks, d1) case None => None case Some((fs, d2)) => Some((Some(fs), d2))
  }

  function DecSections(kss: List<List<Kind>>, d: seq<Byte>): Parsed<List<Section>> {
    match kss
    case Nil => Some((Nil, d))
    case Cons(ks, rest) =>
      match DecSection(ks, d)
      case None => None
      case Some((s, d1)) =>
        match DecSections(rest, d1) case None => None case Some((ss, d2)) => Some((Cons(s, ss), d2))
  }

  function DecBody(d: seq<Byte>): Parsed<Payload> {
    match DecFields(HEAD_KINDS, d)
    case None => None
    case Some((head, d1)) =>
      match DecSections(SECTION_KINDS, d1)
      case None => None
      case Some((ss, d2)) =>
        match PayloadOf(head, ss) case None => None case Some(p) => Some((p, d2))
  }

  ghost predicate SectionsFit(ss: List<Section>, kss: List<List<Kind>>) {
    match (ss, kss)
    case (Nil, Nil) => true
    case (Cons(s, srest), Cons(ks, krest)) => SectionFits(s, ks) && SectionsFit(srest, krest)
    case _ => false
  }

  lemma RoundTripSection(s: Section, ks: List<Kind>, rest: seq<Byte>)
    requires SectionFits(s, ks) && |EncSection(s)| < LENGTH_LIMIT
    ensures DecSection(ks, EncSection(s) + rest) == Some((s, rest))
  {
    hide EncFields, DecFields;
    match s
    case None => assert (EncSection(s) + rest)[1..] == rest;
    case Some(fs) =>
      RoundTripFields(fs, rest);
      assert EncSection(s) + rest == [1] + (EncFields(fs) + rest);
      assert (EncSection(s) + rest)[1..] == EncFields(fs) + rest;
  }

  lemma {:induction false} RoundTripSections(ss: List<Section>, kss: List<List<Kind>>, rest: seq<Byte>)
    requires SectionsFit(ss, kss) && |EncSections(ss)| < LENGTH_LIMIT
    ensures DecSections(kss, EncSections(ss) + rest) == Some((ss, rest))
  {
    hide EncSection, DecSection;
    match ss
    case Nil => assert EncSections(ss) + rest == rest;
    case Cons(s, srest) =>
      RoundTripSections(srest, kss.tail, rest);
      RoundTripSection(s, kss.head, EncSections(srest) + rest);
      assert EncSections(ss) + rest == EncSection(s) + (EncSections(srest) + rest);
  }

  lemma SectionsAgree(p: Payload)
    ensures SectionsFit(Sections(p), SECTION_KINDS)
    ensures PayloadOf(HeadFields(p), Sections(p)) == Some(p)
    ensures KindsOf(HeadFields(p)) == HEAD_KINDS
  {
    hide AddSection, ExtractSection, TestSection, HashSection, BenchmarkSection, OpenSection, ArchiveExportSection,
      CliSection, SectionFits;
    hide AddOf, ExtractOf, TestOf, HashOf, BenchmarkOf, OpenOf, ArchiveExportOf, CliOf;
    AddOrderAgrees(p.add);
    ExtractOrderAgrees(p.extract);
    TestOrderAgrees(p.test);
    HashOrderAgrees(p.hash);
    BenchmarkOrderAgrees(p.benchmark);
    OpenOrderAgrees(p.open);
    ArchiveExportOrderAgrees(p.archive_export);
    CliOrderAgrees(p.cli);
    var ss, kss := Sections(p), SECTION_KINDS;
    assert SectionsFit(ss.tail.tail.tail.tail.tail.tail.tail, kss.tail.tail.tail.tail.tail.tail.tail);
    assert SectionsFit(ss.tail.tail.tail.tail.tail, kss.tail.tail.tail.tail.tail);
    assert SectionsFit(ss.tail.tail.tail, kss.tail.tail.tail);
    assert SectionsFit(ss.tail, kss.tail);
  }

  // Reading a body back consumes it to the last byte.
  lemma BodyRoundTrip(p: Payload)
    requires |EncBody(p)| < LENGTH_LIMIT
    ensures DecBody(EncBody(p)) == Some((p, []))
  {
    hide EncFields, DecFields, EncSections, DecSections, Sections, PayloadOf, HeadFields;
    SectionsAgree(p);
    RoundTripFields(HeadFields(p), EncSections(Sections(p)));
    RoundTripSections(Sections(p), SECTION_KINDS, []);
    assert EncSections(Sections(p)) + [] == EncSections(Sections(p));
  }

  // ---------- the frame ----------

  const PAYLOAD_MAGIC := 0x5A37_4250
  const PAYLOAD_VERSION := 8

  // The checksum function: any function whose results have the 32 bytes of SHA-256.
  type Digest = f: seq<Byte> -> seq<Byte> | forall b :: |f(b)| == 32 witness b => seq(32, _ => 0)

  datatype DecodeError =
    | Corrupted | UnsupportedFormat | InvalidBodySize | TruncatedBody | ChecksumMismatch | BadCommandPayload

  datatype Decoded = Ok(payload: Payload) | Err(error: DecodeError)

  function Frame(body: seq<Byte>, checksum: seq<Byte>): seq<Byte> {
    LE32(PAYLOAD_MAGIC) + (LE16(PAYLOAD_VERSION) + (LE32(|body|) + (EncBytes(checksum) + body)))
  }

  function Encode(p: Payload, digest: Digest): seq<Byte> {
    Frame(EncBody(p), digest(EncBody(p)))
  }

  function DecodeBody(body: seq<Byte>): Decoded {
    match DecBody(body) case None => Err(BadCommandPayload) case Some((p, _)) => Ok(p)
  }

  function Decode(encoded: seq<Byte>, digest: Digest): Decoded {
    match Dec32(encoded)
    case None => Err(Corrupted)
    case Some((magic, d1)) =>
      match Dec16(d1)
      case None => Err(Corrupted)
      case Some((version, d2)) =>
        match Dec32(d2)
        case None => Err(Corrupted)
        case Some((body_size, d3)) =>
          match DecBytes(d3)
          case None => Err(Corrupted)
          case Some((checksum, d4)) =>
            if magic != PAYLOAD_MAGIC || version != PAYLOAD_VERSION then Err(UnsupportedFormat)
            else if body_size == 0 || body_size > |encoded| then Err(InvalidBodySize)
            else if |d4| < body_size then Err(TruncatedBody)
            else if checksum != digest(d4[..body_size]) then Err(ChecksumMismatch)
            else DecodeBody(d4[..body_size])
  }

  lemma DecodeFrame(body: seq<Byte>, checksum: seq<Byte>, digest: Digest, rest: seq<Byte>)
    requires 0 < |body| < LENGTH_LIMIT && |checksum| < LENGTH_LIMIT
    ensures Decode(Frame(body, checksum) + rest, digest) ==
            if checksum != digest(body) then Err(ChecksumMismatch) else DecodeBody(body)
  {
    hide LE16, LE32, Dec16, Dec32, EncBytes, DecBytes, DecodeBody;
    var d4 := body + rest;
    var d3 := EncBytes(checksum) + d4;
    var d2 := LE32(|body|) + d3;
    var d1 := LE16(PAYLOAD_VERSION) + d2;
    RoundTrip32(PAYLOAD_MAGIC, d1);
    RoundTrip16(PAYLOAD_VERSION, d2);
    RoundTrip32(|body|, d3);
    RoundTripBytes(checksum, d4);
    assert Frame(body, checksum) + rest == LE32(PAYLOAD_MAGIC) + d1;
    assert d4[..|body|] == body;
  }

  // Nothing but a frame is accepted: format, version, the body's length and its checksum are right,
  // and the payload is read from the body alone.
  lemma OnlyFramesAreAccepted(encoded: seq<Byte>, digest: Digest) returns (body: seq<Byte>, rest: seq<Byte>)
    requires Decode(encoded, digest).Ok?
    ensures encoded == Frame(body, digest(body)) + rest && 0 < |body| < 0x1_0000_0000
    ensures Decode(encoded, digest) == DecodeBody(body)
  {
    hide LE16, LE32, Dec16, Dec32, EncBytes, DecBytes, DecodeBody;
    Read32(encoded);
    var d1 := Dec32(encoded).value.1;
    Read16(d1);
    var d2 := Dec16(d1).value.1;
    Read32(d2);
    var (size, d3) := Dec32(d2).value;
    ReadBytes(d3);
    var d4 := DecBytes(d3).value.1;
    body, rest := d4[..size], d4[size..];
    FrameParts(body, digest(body), rest);
    assert d4 == body + rest;
  }

  lemma FrameParts(body: seq<Byte>, checksum: seq<Byte>, rest: seq<Byte>)
    ensures Frame(body, checksum) + rest ==
            LE32(PAYLOAD_MAGIC) + (LE16(PAYLOAD_VERSION) + (LE32(|body|) + (EncBytes(checksum) + (body + rest))))
  {
    hide LE16, LE32, EncBytes;
    var d3 := EncBytes(checksum) + (body + rest);
    assert (EncBytes(checksum) + body) + rest == d3;
    assert (LE32(|body|) + (EncBytes(checksum) + body)) + rest == LE32(|body|) + d3;
  }

  // Whatever follows the frame, a payload that fits is read back exactly.
  lemma RoundTrip(p: Payload, digest: Digest, rest: seq<Byte>)
    requires |EncBody(p)| < LENGTH_LIMIT
    ensures Decode(Encode(p, digest) + rest, digest) == Ok(p)
  {
    hide LE16, LE32, EncFields, EncSections, Sections, HeadFields, Frame, Decode, DecBody;
    BodyRoundTrip(p);
    BodyNonEmpty(p);
    DecodeFrame(EncBody(p), digest(EncBody(p)), digest, rest);
  }

  lemma BodyNonEmpty(p: Payload)
    ensures |EncBody(p)| > 0
  {
    hide EncSections, Sections, LE32;
    assert EncFields(HeadFields(p)) == LE32(p.command) + EncFields(HeadFields(p).tail);
  }

  // Two payloads never share an encoding.
  lemma EncodeInjective(p: Payload, q: Payload, digest: Digest)
    requires |EncBody(p)| < LENGTH_LIMIT && |EncBody(q)| < LENGTH_LIMIT
    requires Encode(p, digest) == Encode(q, digest)
    ensures p == q
  {
    hide Encode, Decode, EncBody;
    RoundTrip(p, digest, []);
    RoundTrip(q, digest, []);
  }

  // ---------- the two entry points ----------

  method WriteSection(stream: DataWriter, s: Section)
    modifies stream
    ensures stream.bytes == old(stream.bytes) + EncSection(s)
  {
    hide EncFields;
    stream.WriteField(FBool(s.Some?));
    if s.Some? {
      stream.WriteFields(s.value);
    }
  }

  method SerializeBody(p: Payload) returns (body: seq<Byte>)
    ensures body == EncBody(p)
  {
    hide EncFields, EncSections, EncSection, Sections, HeadFields;
    var body_stream := new DataWriter();
    body_stream.WriteFields(HeadFields(p));
    var todo := Sections(p);
    while todo.Cons?
      invariant body_stream.bytes + EncSections(todo) == EncBody(p)
      decreases todo
    {
      SectionsCons(todo);
      WriteSection(body_stream, todo.head);
      todo := todo.tail;
    }
    SectionsNil();
    body := body_stream.bytes;
    assert body + [] == body;
  }

  method SerializeTaskPayload(p: Payload, digest: Digest) returns (encoded: seq<Byte>)
    ensures encoded == Encode(p, digest)
  {
    hide EncBody, LE16, LE32, EncBytes, Frame;
    var body := SerializeBody(p);
    var stream := new DataWriter();
    stream.WriteUInt32(PAYLOAD_MAGIC);
    stream.WriteUInt16(PAYLOAD_VERSION);
    stream.WriteUInt32(|body|);
    stream.WriteBytes(digest(body));
    stream.WriteRawData(body);
    encoded := stream.bytes;
    FrameIsConcatenation(body, digest(body));
  }

  lemma FrameIsConcatenation(body: seq<Byte>, checksum: seq<Byte>)
    ensures [] + LE32(PAYLOAD_MAGIC) + LE16(PAYLOAD_VERSION) + LE32(|body|) + EncBytes(checksum) + body
            == Frame(body, checksum)
  {
    hide LE16, LE32, EncBytes;
  }

  lemma SectionsCons(ss: List<Section>)
    requires ss.Cons?
    ensures EncSections(ss) == EncSection(ss.head) + EncSections(ss.tail)
  {}

  lemma SectionsNil()
    ensures EncSections(Nil) == []
  {}

  method ReadSection(stream: DataReader, ks: List<Kind>) returns (s: Section)
    requires stream.Valid()
    modifies stream
    ensures stream.Took(old(stream.ok), DecSection(ks, old(stream.Rest())), s)
  {
    hide DecFields, DecBool;
    s := None;
    var present := stream.ReadBool();
    if stream.ok && present {
      var fs := stream.ReadFields(ks);
      s := Some(fs);
    }
  }

  method ReadSections(stream: DataReader, kss: List<List<Kind>>) returns (ss: List<Section>)
    requires stream.Valid()
    modifies stream
    ensures stream.Took(old(stream.ok), DecSections(kss, old(stream.Rest())), ss)
    decreases kss
  {
    hide DecSection;
    match kss
    case Nil => ss := Nil;
    case Cons(ks, rest) =>
      var s := ReadSection(stream, ks);
      var more := ReadSections(stream, rest);
      ss := Cons(s, more);
  }

  method DeserializeTaskPayload(encoded: seq<Byte>, digest: Digest) returns (r: Decoded)
    ensures r == Decode(encoded, digest)
  {
    hide Dec16, Dec32, DecBytes, DecodeBody;
    var stream := new DataReader(encoded);
    var magic := stream.ReadUInt32();
    var version := stream.ReadUInt16();
    var body_size := stream.ReadUInt32();
    var stored_checksum := stream.ReadBytes();
    if !stream.ok { return Err(Corrupted); }
    if magic != PAYLOAD_MAGIC || version != PAYLOAD_VERSION { return Err(UnsupportedFormat); }
    if body_size == 0 || body_size > |encoded| { return Err(InvalidBodySize); }
    if |stream.Rest()| < body_size { return Err(TruncatedBody); }
    var body := stream.Rest()[..body_size];
    if stored_checksum != digest(body) { return Err(ChecksumMismatch); }
    r := DeserializeBody(body);
  }

  method DeserializeBody(body: seq<Byte>) returns (r: Decoded)
    ensures r == DecodeBody(body)
  {
    hide DecFields, DecSections, PayloadOf;
    var body_stream := new DataReader(body);
    var head := body_stream.ReadFields(HEAD_KINDS);
    var sections := ReadSections(body_stream, SECTION_KINDS);
    if !body_stream.ok { return Err(BadCommandPayload); }
    match PayloadOf(head, sections)
    case Some(p) => return Ok(p);
    case None => return Err(BadCommandPayload);
  }
}
