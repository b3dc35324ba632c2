/** The two byte layouts the firmware burns into FRAM at fixed addresses: the
    Firmware System Control Byte read by the ROM bootstrap, and the NDEF
    block (capability container, NDEF message TLV holding one URI record,
    terminator TLV) read by contactless readers. Each layout has a decoder
    into its meaning, an encoder back, and round-trip lemmas between them. */
module NvmLayout {
  import opened Bytes

  const FIRMWARE_CONTROL_ADDRESS: nat := 0xF867
  const NDEF_START_ADDRESS: nat := 0xF868
  const NDEF_AREA_SIZE: nat := 21

  // ---------------------------------------------------------------------
  // Firmware System Control Byte

  const ROM_EUSCI_SUPPORT_ENABLED: bv8 := 0x04     // BIT2
  const EROM_EUSCI_SUPPORT_DISABLED: bv8 := 0
  const ROM_SENSOR_SUPPORT_ENABLED: bv8 := 0x80    // BIT7
  const ROM_SENSOR_SUPPORT_DISABLED: bv8 := 0
  const NFC_BRIDGE_DISABLED: bv8 := 0x40           // BIT6
  const NFC_BRIDGE_ENABLED: bv8 := 0
  const EIGHT_BYTE_BLOCK: bv8 := 0x01              // BIT0
  const FOUR_BYTE_BLOCK: bv8 := 0
  const FIRST_ISO_PAGE: bv8 := 0x02                // BIT1
  const SECOND_ISO_PAGE: bv8 := 0

  /** The value burned at FIRMWARE_CONTROL_ADDRESS, summed as the source
      sums it. */
  const FirmwareSystemControlByte: bv8 :=
    ROM_SENSOR_SUPPORT_DISABLED + EROM_EUSCI_SUPPORT_DISABLED + NFC_BRIDGE_DISABLED
    + FOUR_BYTE_BLOCK + FIRST_ISO_PAGE

  datatype BlockSize = FourByte | EightByte

  /** The meaning of the control byte, field by field of its bit table.
      `firstPage` is bit 1 (set: ISO page 0); `reserved` holds bits 3-5. */
  datatype SystemControl = SystemControl(
    blockSize: BlockSize,
    firstPage: bool,
    eusciSupport: bool,
    reserved: bv8,
    nfcBridge: bool,
    sensorSupport: bool)

  function DecodeControl(b: bv8): (c: SystemControl)
    ensures c.reserved < 8
  {
    SystemControl(
      if b & EIGHT_BYTE_BLOCK != 0 then EightByte else FourByte,
      b & FIRST_ISO_PAGE != 0,
      b & ROM_EUSCI_SUPPORT_ENABLED != 0,
      (b >> 3) & 7,
      b & NFC_BRIDGE_DISABLED == 0,      // the bridge bit is active-low
      b & ROM_SENSOR_SUPPORT_ENABLED != 0)
  }

  function EncodeControl(c: SystemControl): bv8
    requires c.reserved < 8
  {
    (if c.blockSize == EightByte then EIGHT_BYTE_BLOCK else FOUR_BYTE_BLOCK)
    | (if c.firstPage then FIRST_ISO_PAGE else SECOND_ISO_PAGE)
    | (if c.eusciSupport then ROM_EUSCI_SUPPORT_ENABLED else EROM_EUSCI_SUPPORT_DISABLED)
    | (c.reserved << 3)
    | (if c.nfcBridge then NFC_BRIDGE_ENABLED else NFC_BRIDGE_DISABLED)
    | (if c.sensorSupport then ROM_SENSOR_SUPPORT_ENABLED else ROM_SENSOR_SUPPORT_DISABLED)
  }

  /** Every control byte is the encoding of its decoding: the bit table
      accounts for all eight bits. */
  lemma ControlEncodeDecode(b: bv8)
    ensures EncodeControl(DecodeControl(b)) == b
  {
  }

  lemma ControlDecodeEncode(c: SystemControl)
    requires c.reserved < 8
    ensures DecodeControl(EncodeControl(c)) == c
  {
  }

  /** The byte the firmware burns is 0x42 (not the 0x7F of the trailing
      comment): 4-byte blocks, ISO page 0, eUSCI support off, NFC bridge off,
      sensor support off, reserved bits clear. */
  lemma ControlByteMeaning()
    ensures FirmwareSystemControlByte == 0x42
    ensures DecodeControl(FirmwareSystemControlByte) == SystemControl(FourByte, true, false, 0, false, false)
    ensures DecodeControl(0x7F) != DecodeControl(FirmwareSystemControlByte)
  {
  }

  // ---------------------------------------------------------------------
  // NDEF block

  /** C aggregate initialisation of a byte array of `n` elements: the listed
      initialisers, then zeros for every element left without one. */
  function AggregateInit(inits: seq<byte>, n: nat): (r: seq<byte>)
    requires |inits| <= n
    ensures |r| == n
    ensures r[..|inits|] == inits
    ensures forall i :: |inits| <= i < n ==> r[i] == 0
  {
    inits + seq(n - |inits|, _ => 0)
  }

  /** The twenty initialisers written for `NFC_NDEF_Message[21]`. */
  const NdefInitialisers: seq<byte> := [
    0xE1, 0x40, 0xF2, 0x00,   // block 0: capability container
    0x03, 0x0B, 0xD1, 0x01,   // block 1: NDEF message TLV, record header, type length
    0x07, 0x55, 0x01, 0x74,   // block 2: payload length, 'U', "http://www.", 't'
    0x69, 0x2E, 0x63, 0x6F,   // block 3: "i.co"
    0x6D, 0xFE, 0x00, 0x00    // block 4: 'm', terminator TLV, two don't-care bytes
  ]

  const NfcNdefMessage: seq<byte> := AggregateInit(NdefInitialisers, NDEF_AREA_SIZE)

  const CC_MAGIC: byte := 0xE1
  const NDEF_MESSAGE_TLV: byte := 0x03
  const TERMINATOR_TLV: byte := 0xFE
  const LONG_LENGTH_FORM: byte := 0xFF
  const URI_RECORD_TYPE: byte := 0x55   // 'U'
  const TNF_WELL_KNOWN: bv8 := 0x01

  /** The flag byte that opens an NDEF record. */
  datatype RecordHeader = RecordHeader(
    messageBegin: bool,
    messageEnd: bool,
    chunk: bool,
    shortRecord: bool,
    idLength: bool,
    tnf: bv8)

  function DecodeHeader(h: bv8): (r: RecordHeader)
    ensures r.tnf < 8
  {
    RecordHeader(h & 0x80 != 0, h & 0x40 != 0, h & 0x20 != 0, h & 0x10 != 0, h & 0x08 != 0, h & 0x07)
  }

  function EncodeHeader(r: RecordHeader): bv8
    requires r.tnf < 8
  {
    (if r.messageBegin then 0x80 else 0)
    | (if r.messageEnd then 0x40 else 0)
    | (if r.chunk then 0x20 else 0)
    | (if r.shortRecord then 0x10 else 0)
    | (if r.idLength then 0x08 else 0)
    | r.tnf
  }

  lemma HeaderEncodeDecode(h: bv8)
    ensures EncodeHeader(DecodeHeader(h)) == h
  {
  }

  lemma HeaderDecodeEncode(r: RecordHeader)
    requires r.tnf < 8
    ensures DecodeHeader(EncodeHeader(r)) == r
  {
  }

  /** The only record shape this layout uses: the first and last record of
      its message, not chunked, short (one-byte payload length), no ID
      field, well-known type. */
  const SingleShortWellKnown := RecordHeader(true, true, false, true, false, TNF_WELL_KNOWN)

  /** The header byte of that shape. */
  const RECORD_HEADER: byte := 0xD1

  lemma RecordHeaderByte()
    ensures EncodeHeader(SingleShortWellKnown) == RECORD_HEADER as bv8
    ensures DecodeHeader(RECORD_HEADER as bv8) == SingleShortWellKnown
  {
  }

  datatype CapabilityContainer = CapabilityContainer(version: byte, memorySize: byte, features: byte)

  /** A URI record: the identifier code naming a prefix, and the rest of the
      URI as bytes. */
  datatype UriRecord = UriRecord(identifierCode: byte, field: seq<byte>)

  datatype Tag = Tag(cc: CapabilityContainer, uri: UriRecord)

  datatype NdefError =
    | Truncated
    | BadMagic
    | NoMessageTlv
    | LongLengthForm
    | UnsupportedHeader
    | NotUriRecord
    | LengthMismatch
    | EmptyPayload
    | NoTerminator

  datatype Result<T> = Ok(value: T) | Err(error: NdefError)

  /** Parses the bytes of one NDEF message that must hold exactly one
      single short well-known URI record. */
  function DecodeUriRecord(rec: seq<byte>): Result<UriRecord> {
    if |rec| < 4 then Err(Truncated)
    else if DecodeHeader(rec[0] as bv8) != SingleShortWellKnown then Err(UnsupportedHeader)
    else if rec[1] != 1 || rec[3] != URI_RECORD_TYPE then Err(NotUriRecord)
    else if |rec| != 4 + rec[2] as int then Err(LengthMismatch)
    else if rec[2] == 0 then Err(EmptyPayload)
    else Ok(UriRecord(rec[4], rec[5..]))
  }

  /** Parses a tag memory image: capability container, NDEF message TLV with
      a one-byte length, the record it covers, then a terminator TLV. Bytes
      after the terminator are not looked at. */
  function DecodeTag(b: seq<byte>): Result<Tag> {
    if |b| < 6 then Err(Truncated)
    else if b[0] != CC_MAGIC then Err(BadMagic)
    else if b[4] != NDEF_MESSAGE_TLV then Err(NoMessageTlv)
    else if b[5] == LONG_LENGTH_FORM then Err(LongLengthForm)
    else if |b| < 7 + b[5] as int then Err(Truncated)
    else
      match DecodeUriRecord(b[6..6 + b[5] as int])
      case Err(e) => Err(e)
      case Ok(u) =>
        if b[6 + b[5] as int] != TERMINATOR_TLV then Err(NoTerminator)
        else Ok(Tag(CapabilityContainer(b[1], b[2], b[3]), u))
  }

  /** The longest URI field that still fits the 21-byte area together with
      the 11 header bytes and the terminator. */
  const MAX_URI_FIELD: nat := 9

  function EncodeUriRecord(u: UriRecord): (r: seq<byte>)
    requires |u.field| < 255
    ensures |r| == 5 + |u.field|
  {
    [RECORD_HEADER, 1, 1 + |u.field|, URI_RECORD_TYPE, u.identifierCode]
    + u.field
  }

  /** Lays a tag out in the 21-byte area, zero-filling after the
      terminator. */
  function EncodeTag(t: Tag): (r: seq<byte>)
    requires |t.uri.field| <= MAX_URI_FIELD
    ensures |r| == NDEF_AREA_SIZE
  {
    var rec := EncodeUriRecord(t.uri);
    AggregateInit(
      [CC_MAGIC, t.cc.version, t.cc.memorySize, t.cc.features, NDEF_MESSAGE_TLV, |rec|]
      + rec + [TERMINATOR_TLV],
      NDEF_AREA_SIZE)
  }

  lemma UriRecordRoundTrip(u: UriRecord)
    requires |u.field| < 255
    ensures DecodeUriRecord(EncodeUriRecord(u)) == Ok(u)
  {
    var rec := EncodeUriRecord(u);
    RecordHeaderByte();
    assert rec[5..] == u.field;
  }

  /** Every tag that fits the area decodes back from its layout. */
  lemma TagRoundTrip(t: Tag)
    requires |t.uri.field| <= MAX_URI_FIELD
    ensures DecodeTag(EncodeTag(t)) == Ok(t)
  {
    var rec := EncodeUriRecord(t.uri);
    var head: seq<byte> := [CC_MAGIC, t.cc.version, t.cc.memorySize, t.cc.features, NDEF_MESSAGE_TLV, |rec|];
    var inits := head + rec + [TERMINATOR_TLV];
    var b := EncodeTag(t);
    assert b[..|inits|] == inits;
    assert b[5] == |rec|;
    assert b[6..6 + |rec|] == rec by {
      assert b[6..6 + |rec|] == inits[6..6 + |rec|];
    }
    assert b[6 + |rec|] == inits[6 + |rec|];
    UriRecordRoundTrip(t.uri);
  }

  /** 0xD1 is the only byte that decodes to the single short well-known
      header. */
  lemma RecordHeaderUnique(x: byte)
    requires DecodeHeader(x as bv8) == SingleShortWellKnown
    ensures x == RECORD_HEADER
  {
    HeaderEncodeDecode(x as bv8);
    RecordHeaderByte();
  }

  /** Every record the decoder accepts is exactly the layout of what it
      returns. */
  lemma UriRecordDecodeEncode(rec: seq<byte>, u: UriRecord)
    requires DecodeUriRecord(rec) == Ok(u)
    ensures |u.field| < 255
    ensures EncodeUriRecord(u) == rec
  {
    RecordHeaderUnique(rec[0]);
    var e := EncodeUriRecord(u);
    assert e[..5] == rec[..5];
    assert e[5..] == rec[5..];
    assert e == e[..5] + e[5..] && rec == rec[..5] + rec[5..];
  }

  /** Every tag image the decoder accepts starts with the layout of what it
      returns: the decoder reads exactly the bytes the encoder writes, and
      the image is at least as long as that layout. */
  lemma TagDecodeEncode(b: seq<byte>, t: Tag)
    requires DecodeTag(b) == Ok(t)
    ensures 12 + |t.uri.field| <= |b|
    ensures |t.uri.field| <= MAX_URI_FIELD ==>
      EncodeTag(t)[..12 + |t.uri.field|] == b[..12 + |t.uri.field|]
  {
    var n := b[5] as int;
    var rec := b[6..6 + n];
    UriRecordDecodeEncode(rec, t.uri);
    if |t.uri.field| <= MAX_URI_FIELD {
      var e := EncodeTag(t);
      var k := 12 + |t.uri.field|;
      assert k == 7 + n;
      forall i | 0 <= i < k ensures e[i] == b[i] {
        if 6 <= i < 6 + n {
          assert e[i] == EncodeUriRecord(t.uri)[i - 6];
          assert b[i] == rec[i - 6];
        }
      }
    }
  }

  /** The URI prefixes of the NFC Forum URI Record Type Definition, section
      3.2.2, indexed by identifier code; codes from 0x24 on are reserved. */
  const UriPrefixes: seq<string> := [
    "", "http://www.", "https://www.", "http://", "https://", "tel:", "mailto:",
    "ftp://anonymous:anonymous@", "ftp://ftp.", "ftps://", "sftp://", "smb://",
    "nfs://", "ftp://", "dav://", "news:", "telnet://", "imap:", "rtsp://", "urn:",
    "pop:", "sip:", "sips:", "tftp:", "btspp://", "btl2cap://", "btgoep://",
    "tcpobex://", "irdaobex://", "file://", "urn:epc:id:", "urn:epc:tag:",
    "urn:epc:pat:", "urn:epc:raw:", "urn:epc:", "urn:nfc:"
  ]

  datatype Option<T> = None | Some(value: T)

  /** Bytes read as characters, one character per byte. This agrees with
      the UTF-8 reading the URI Record Type Definition prescribes exactly
      when every byte is ASCII (below 0x80). */
  function Latin1(bytes: seq<byte>): (s: string)
    ensures |s| == |bytes|
    ensures forall i :: 0 <= i < |bytes| ==> s[i] as int == bytes[i]
  {
    seq(|bytes|, i requires 0 <= i < |bytes| => bytes[i] as char)
  }

  /** The full URI a record stands for: the prefix its identifier code
      names, then the field; None for a reserved identifier code. */
  function UriOf(u: UriRecord): (r: Option<string>)
    ensures r.Some? <==> u.identifierCode < |UriPrefixes|
    ensures r.Some? ==> |r.value| == |UriPrefixes[u.identifierCode]| + |u.field|
    ensures r.Some? ==> r.value[..|UriPrefixes[u.identifierCode]|] == UriPrefixes[u.identifierCode]
    ensures r.Some? ==> forall i :: 0 <= i < |u.field| ==>
      r.value[|UriPrefixes[u.identifierCode]| + i] as int == u.field[i]
  {
    if u.identifierCode < |UriPrefixes| then
      Some(UriPrefixes[u.identifierCode] + Latin1(u.field))
    else None
  }

  const TiUri := UriRecord(0x01, [0x74, 0x69, 0x2E, 0x63, 0x6F, 0x6D])
  const TiTag := Tag(CapabilityContainer(0x40, 0xF2, 0x00), TiUri)

  /** The byte layout of `NFC_NDEF_Message`: magic 0xE1 first; an NDEF
      message TLV at bytes 4-5 whose length 11 covers exactly bytes 6-16;
      a single short well-known record with a one-byte type 'U' and a
      payload length of 7 that matches bytes 10-16; the terminator TLV at
      byte 17; zeros in bytes 18-20, the last of them supplied by aggregate
      initialisation since only twenty initialisers are written. */
  lemma NdefMessageLayout()
    ensures |NdefInitialisers| == 20 && |NfcNdefMessage| == NDEF_AREA_SIZE
    ensures NfcNdefMessage[0] == CC_MAGIC
    ensures NfcNdefMessage[4] == NDEF_MESSAGE_TLV && NfcNdefMessage[5] == 17 - 6
    ensures DecodeHeader(NfcNdefMessage[6] as bv8) == SingleShortWellKnown
    ensures NfcNdefMessage[7] == 1 && NfcNdefMessage[9] == URI_RECORD_TYPE
    ensures NfcNdefMessage[8] == |NfcNdefMessage[10..17]|
    ensures NfcNdefMessage[17] == TERMINATOR_TLV
    ensures NfcNdefMessage[18..] == [0, 0, 0]
  {
    assert NfcNdefMessage[..20] == NdefInitialisers;
  }

  /** The constant is exactly the layout of the tag carrying
      "http://www.ti.com", and decodes back to it. */
  lemma NdefMessageIsTiUri()
    ensures EncodeTag(TiTag) == NfcNdefMessage
    ensures DecodeTag(NfcNdefMessage) == Ok(TiTag)
    ensures UriOf(TiTag.uri) == Some("http://www.ti.com")
  {
    var b := EncodeTag(TiTag);
    assert b[..20] == NdefInitialisers;
    assert NfcNdefMessage[..20] == NdefInitialisers;
    assert b == NfcNdefMessage;
    TagRoundTrip(TiTag);
    TiUriText();
  }

  lemma TiUriText()
    ensures UriOf(TiUri) == Some("http://www.ti.com")
  {
    var host := Latin1(TiUri.field);
    assert host == "ti.com" by {
      assert host[0] == 't' && host[1] == 'i' && host[2] == '.';
      assert host[3] == 'c' && host[4] == 'o' && host[5] == 'm';
    }
    assert UriPrefixes[1] == "http://www.";
    assert UriOf(TiUri).value == UriPrefixes[1] + host;
    assert "http://www." + "ti.com" == "http://www.ti.com";
  }
}
