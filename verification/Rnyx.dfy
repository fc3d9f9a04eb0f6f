/** The RNYX executable envelope: rnyx_validate of kernel/core/load.c against the packer it accepts. */
module Rnyx {
  import opened Bytes

  const MAGIC: nat := 0x584e_5952
  const HEADER: nat := 28
  const PAGE: nat := 4096

  datatype Layout = Layout(codeOff: nat, codeLen: nat, dataOff: nat, fileSize: nat, memSize: nat)

  datatype Error = Truncated | BadMagic | BadVersion | BadArch | BadHeader | BadEntry | CodeSize | DataSize | Shape

  datatype Result = Ok(layout: Layout) | Err(error: Error)

  /** Version 1 is one page of code and of data, version 2 sixteen and eight. */
  function CodeMax(version: nat): nat { if version == 1 then PAGE else 16 * PAGE }
  function DataMax(version: nat): nat { if version == 1 then PAGE else 8 * PAGE }

  function Validate(img: seq<U8>): Result {
    if |img| < HEADER then Err(Truncated)
    else if Rd(img, 0, 4) != MAGIC then Err(BadMagic)
    else
      var version := Rd(img, 4, 2);
      if version != 1 && version != 2 then Err(BadVersion)
      else if Rd(img, 6, 2) != 1 then Err(BadArch)
      else if Rd(img, 8, 2) != HEADER || Rd(img, 10, 2) != 0 then Err(BadHeader)
      else
        var code, fsz, msz := Rd(img, 16, 4), Rd(img, 20, 4), Rd(img, 24, 4);
        if Rd(img, 12, 4) != 0 then Err(BadEntry)
        else if code == 0 || code > CodeMax(version) then Err(CodeSize)
        else if fsz > DataMax(version) || msz < fsz || msz > DataMax(version) then Err(DataSize)
        else if HEADER + code + fsz != |img| then Err(Shape)
        else Ok(Layout(HEADER, code, HEADER + code, fsz, msz))
  }

  predicate Packable(version: nat, code: seq<U8>, data: seq<U8>, memSize: nat) {
    || (version == 1 && 0 < |code| <= 0x1000 && |data| <= memSize <= 0x1000)
    || (version == 2 && 0 < |code| <= 0x1_0000 && |data| <= memSize <= 0x8000)
  }

  function Header(version: nat, code: nat, data: nat, memSize: nat): (h: seq<U8>)
    ensures |h| == HEADER
  {
    Le(MAGIC, 4) + (Le(version, 2) + (Le(1, 2) + Fixed(code, data, memSize)))
  }

  /** Header size, two reserved fields and the three sizes. */
  function Fixed(code: nat, data: nat, memSize: nat): (t: seq<U8>)
    ensures |t| == HEADER - 8
  {
    Le(HEADER, 2) + (Le(0, 2) + (Le(0, 4) + Sizes(code, data, memSize)))
  }

  function Sizes(code: nat, data: nat, memSize: nat): (t: seq<U8>)
    ensures |t| == 12
  {
    Le(code, 4) + (Le(data, 4) + Le(memSize, 4))
  }

  function Pack(version: nat, code: seq<U8>, data: seq<U8>, memSize: nat): seq<U8> {
    Header(version, |code|, |data|, memSize) + code + data
  }

  /** What is packed is accepted, and the layout cuts the same code and data out again. */
  lemma PackedIsAccepted(version: nat, code: seq<U8>, data: seq<U8>, memSize: nat)
    requires Packable(version, code, data, memSize)
    ensures var img := Pack(version, code, data, memSize);
            && Validate(img) == Ok(Layout(HEADER, |code|, HEADER + |code|, |data|, memSize))
            && img[HEADER..HEADER + |code|] == code
            && img[HEADER + |code|..] == data
  {
    var img := Pack(version, code, data, memSize);
    HeaderFields(img, version, |code|, |data|, memSize);
    assert img[HEADER..HEADER + |code|] == code;
    assert img[HEADER + |code|..] == data;
  }

  lemma HeaderFields(img: seq<U8>, version: nat, code: nat, data: nat, memSize: nat)
    requires HEADER <= |img| && img[..HEADER] == Header(version, code, data, memSize)
    requires version < 0x1_0000 && code < 0x100_0000 && data < 0x100_0000 && memSize < 0x100_0000
    ensures Rd(img, 0, 4) == MAGIC && Rd(img, 4, 2) == version && Rd(img, 6, 2) == 1 && Rd(img, 8, 2) == HEADER
    ensures Rd(img, 10, 2) == 0 && Rd(img, 12, 4) == 0
    ensures Rd(img, 16, 4) == code && Rd(img, 20, 4) == data && Rd(img, 24, 4) == memSize
  {
    HeaderSlices(version, code, data, memSize);
    FixedSlices(img[..HEADER], code, data, memSize);
    SizeSlices(img[..HEADER], code, data, memSize);
    ReadField(img, 0, 4, MAGIC);
    ReadField(img, 4, 2, version);
    ReadField(img, 6, 2, 1);
    ReadField(img, 8, 2, HEADER);
    ReadField(img, 10, 2, 0);
    ReadField(img, 12, 4, 0);
    ReadField(img, 16, 4, code);
    ReadField(img, 20, 4, data);
    ReadField(img, 24, 4, memSize);
  }

  /** A header field read back from the whole image. */
  lemma ReadField(img: seq<U8>, at: nat, k: nat, v: nat)
    requires at + k <= HEADER <= |img| && img[..HEADER][at..at + k] == Le(v, k)
    requires (k == 2 && v < 0x1_0000) || (k == 4 && v < 0x1_0000_0000)
    ensures Rd(img, at, k) == v
  {
    PrefixSlice(img, HEADER, at, at + k);
    FitsBound(v);
    RdLe(img, at, k, v);
  }

  lemma PrefixSlice(s: seq<U8>, n: nat, i: nat, j: nat)
    requires i <= j <= n <= |s|
    ensures s[..n][i..j] == s[i..j]
  {
  }

  lemma HeaderSlices(version: nat, code: nat, data: nat, memSize: nat)
    ensures var h := Header(version, code, data, memSize);
            && h[0..4] == Le(MAGIC, 4) && h[4..6] == Le(version, 2) && h[6..8] == Le(1, 2)
            && h[8..] == Fixed(code, data, memSize)
  {
    var h := Header(version, code, data, memSize);
    var t := Fixed(code, data, memSize);
    assert h[0..] == h;
    CutOff(h, 0, Le(MAGIC, 4), Le(version, 2) + (Le(1, 2) + t));
    CutOff(h, 4, Le(version, 2), Le(1, 2) + t);
    CutOff(h, 6, Le(1, 2), t);
  }

  lemma FixedSlices(h: seq<U8>, code: nat, data: nat, memSize: nat)
    requires |h| == HEADER && h[8..] == Fixed(code, data, memSize)
    ensures h[8..10] == Le(HEADER, 2) && h[10..12] == Le(0, 2) && h[12..16] == Le(0, 4)
    ensures h[16..] == Sizes(code, data, memSize)
  {
    var t := Sizes(code, data, memSize);
    CutOff(h, 8, Le(HEADER, 2), Le(0, 2) + (Le(0, 4) + t));
    CutOff(h, 10, Le(0, 2), Le(0, 4) + t);
    CutOff(h, 12, Le(0, 4), t);
  }

  lemma SizeSlices(h: seq<U8>, code: nat, data: nat, memSize: nat)
    requires |h| == HEADER && h[16..] == Sizes(code, data, memSize)
    ensures h[16..20] == Le(code, 4) && h[20..24] == Le(data, 4) && h[24..28] == Le(memSize, 4)
  {
    CutOff(h, 16, Le(code, 4), Le(data, 4) + Le(memSize, 4));
    CutOff(h, 20, Le(data, 4), Le(memSize, 4));
    assert h[24..28] == h[24..];
  }

  /** What is accepted was packed: the image is exactly the packer's output for the parts it names. */
  lemma AcceptedWasPacked(img: seq<U8>)
    requires Validate(img).Ok?
    ensures var l := Validate(img).layout;
            && l.codeOff + l.codeLen == l.dataOff && l.dataOff + l.fileSize == |img|
            && Packable(Rd(img, 4, 2), img[l.codeOff..l.dataOff], img[l.dataOff..], l.memSize)
            && img == Pack(Rd(img, 4, 2), img[l.codeOff..l.dataOff], img[l.dataOff..], l.memSize)
  {
    var l := Validate(img).layout;
    var code, data := img[l.codeOff..l.dataOff], img[l.dataOff..];
    HeaderFromFields(img);
    ThreeParts(img, HEADER, l.dataOff);
  }

  lemma ThreeParts(img: seq<U8>, x: nat, y: nat)
    requires x <= y <= |img|
    ensures img == img[..x] + img[x..y] + img[y..]
  {
  }

  /** A header whose fixed fields are right is the one the packer writes for its variable fields. */
  lemma HeaderFromFields(img: seq<U8>)
    requires HEADER <= |img|
    requires Rd(img, 0, 4) == MAGIC && Rd(img, 6, 2) == 1 && Rd(img, 8, 2) == HEADER
    requires Rd(img, 10, 2) == 0 && Rd(img, 12, 4) == 0
    ensures img[..HEADER] == Header(Rd(img, 4, 2), Rd(img, 16, 4), Rd(img, 20, 4), Rd(img, 24, 4))
  {
    LeRd(img, 0, 4);
    LeRd(img, 4, 2);
    LeRd(img, 6, 2);
    LeRd(img, 8, 2);
    LeRd(img, 10, 2);
    LeRd(img, 12, 4);
    LeRd(img, 16, 4);
    LeRd(img, 20, 4);
    LeRd(img, 24, 4);
    CutHeader(img);
  }

  lemma CutHeader(img: seq<U8>)
    requires HEADER <= |img|
    ensures img[..HEADER] == img[0..4] + (img[4..6] + (img[6..8] + img[8..HEADER]))
    ensures img[8..HEADER] == img[8..10] + (img[10..12] + (img[12..16] + img[16..HEADER]))
    ensures img[16..HEADER] == img[16..20] + (img[20..24] + img[24..28])
  {
  }

  /** The validator accepts exactly the images a packer can produce. */
  lemma AcceptsExactlyPacked(img: seq<U8>)
    ensures Validate(img).Ok? <==>
              exists version, code, data, memSize :: Packable(version, code, data, memSize) && img == Pack(version, code, data, memSize)
  {
    if Validate(img).Ok? {
      AcceptedWasPacked(img);
    }
    forall version, code, data, memSize | Packable(version, code, data, memSize) && img == Pack(version, code, data, memSize)
      ensures Validate(img).Ok?
    {
      PackedIsAccepted(version, code, data, memSize);
    }
  }

  /** The fields of a header, by their offsets. */
  predicate HasFields(img: seq<U8>, magic: nat, version: nat, arch: nat, header: nat, reserved: nat,
                      entry: nat, code: nat, data: nat, memSize: nat) {
    && Field(img, 0, 4, magic) && Field(img, 4, 2, version) && Field(img, 6, 2, arch)
    && Field(img, 8, 2, header) && Field(img, 10, 2, reserved) && Field(img, 12, 4, entry)
    && Field(img, 16, 4, code) && Field(img, 20, 4, data) && Field(img, 24, 4, memSize)
  }

  lemma FieldsAreRead(img: seq<U8>, magic: nat, version: nat, arch: nat, header: nat, reserved: nat,
                      entry: nat, code: nat, data: nat, memSize: nat)
    requires HasFields(img, magic, version, arch, header, reserved, entry, code, data, memSize)
    ensures 28 <= |img|
    ensures Rd(img, 0, 4) == magic && Rd(img, 4, 2) == version && Rd(img, 6, 2) == arch && Rd(img, 8, 2) == header
    ensures Rd(img, 10, 2) == reserved && Rd(img, 12, 4) == entry
    ensures Rd(img, 16, 4) == code && Rd(img, 20, 4) == data && Rd(img, 24, 4) == memSize
  {
    FieldIsRead(img, 0, 4, magic);
    FieldIsRead(img, 4, 2, version);
    FieldIsRead(img, 6, 2, arch);
    FieldIsRead(img, 8, 2, header);
    FieldIsRead(img, 10, 2, reserved);
    FieldIsRead(img, 12, 4, entry);
    FieldIsRead(img, 16, 4, code);
    FieldIsRead(img, 20, 4, data);
    FieldIsRead(img, 24, 4, memSize);
  }

  /** The first field that is wrong decides the error. */
  lemma FirstFaultDecides(img: seq<U8>, magic: nat, version: nat, arch: nat, header: nat, reserved: nat,
                          entry: nat, code: nat, data: nat, memSize: nat)
    requires HasFields(img, magic, version, arch, header, reserved, entry, code, data, memSize)
    ensures var codeMax, dataMax := if version == 1 then 0x1000 else 0x1_0000, if version == 1 then 0x1000 else 0x8000;
            Validate(img) ==
            if magic != 0x584e_5952 then Err(BadMagic)
            else if version != 1 && version != 2 then Err(BadVersion)
            else if arch != 1 then Err(BadArch)
            else if header != 28 || reserved != 0 then Err(BadHeader)
            else if entry != 0 then Err(BadEntry)
            else if code == 0 || codeMax < code then Err(CodeSize)
            else if dataMax < data || memSize < data || dataMax < memSize then Err(DataSize)
            else if |img| != 28 + code + data then Err(Shape)
            else Ok(Layout(28, code, 28 + code, data, memSize))
  {
    FieldsAreRead(img, magic, version, arch, header, reserved, entry, code, data, memSize);
  }
}
