/** How an uploaded file's type is decided: by its name and its leading
    "magic" bytes, accepting a PowerPoint (ZIP) archive or a PDF document. */
module FileType {
  import opened Results
  import opened Text

  newtype byte = x: int | 0 <= x < 256

  /** A ZIP local file header, `PK\x03\x04`, which every .pptx starts with. */
  const ZipMagic: seq<byte> := [0x50, 0x4B, 0x03, 0x04]
  /** `%PDF`. */
  const PdfMagic: seq<byte> := [0x25, 0x50, 0x44, 0x46]

  const Pptx := "pptx"
  const Pdf := "pdf"
  const UnsupportedLead := "Unsupported file type: "

  /** Python's `content[:4] == magic` for a four-byte `magic`. */
  predicate StartsWith(content: seq<byte>, magic: seq<byte>)
    requires |magic| == 4
  {
    (if |content| < 4 then content else content[..4]) == magic
  }

  /** `_detect_file_type`: the extension is tried first, each backed by the
      magic bytes, then the magic bytes alone; anything else is refused. */
  function DetectFileType(filename: string, content: seq<byte>): (r: Result<string>)
    ensures r == Ok(Pptx) <==> StartsWith(content, ZipMagic)
    ensures r == Ok(Pdf) <==> StartsWith(content, PdfMagic)
    ensures r.Error? <==> !StartsWith(content, ZipMagic) && !StartsWith(content, PdfMagic)
    ensures r.Error? ==> r.message == UnsupportedLead + filename
  {
    var name := LowerString(filename);
    if EndsWith(name, ".pptx") && StartsWith(content, ZipMagic) then Ok(Pptx)
    else if !EndsWith(name, ".pptx") && EndsWith(name, ".pdf") && StartsWith(content, PdfMagic) then Ok(Pdf)
    else if StartsWith(content, ZipMagic) then Ok(Pptx)
    else if StartsWith(content, PdfMagic) then Ok(Pdf)
    else Error(UnsupportedLead + filename)
  }

  /** The two signatures differ in their first byte, so no content has both. */
  lemma MagicExclusive(content: seq<byte>)
    ensures !(StartsWith(content, ZipMagic) && StartsWith(content, PdfMagic))
  {
    if |content| >= 4 && content[..4] == ZipMagic {
      assert content[..4][0] == 0x50;
    }
  }

  /** The name never changes the answer once the content is known: the
      extension checks only ever confirm what the magic bytes decide. */
  lemma NameIrrelevant(name1: string, name2: string, content: seq<byte>)
    requires StartsWith(content, ZipMagic) || StartsWith(content, PdfMagic)
    ensures DetectFileType(name1, content) == DetectFileType(name2, content)
  {
    MagicExclusive(content);
  }

  /** Content shorter than four bytes is never accepted, whatever its name. */
  lemma ShortContentRefused(filename: string, content: seq<byte>)
    requires |content| < 4
    ensures DetectFileType(filename, content) == Error(UnsupportedLead + filename)
  {}

  /** A PDF signature inside a file named .pptx is still taken as a PDF. */
  lemma MisnamedPdf()
    ensures DetectFileType("slides.pptx", PdfMagic + [0x2D]) == Ok(Pdf)
  {
    MagicExclusive(PdfMagic + [0x2D]);
    assert (PdfMagic + [0x2D])[..4] == PdfMagic;
  }
}
