/** Requests, fingerprints and parts, and the validators the gateway applies to them. */
module Messages {

  datatype Option<+T> = None | Some(value: T)

  datatype Pdf = Pdf(filename: string, content: string)

  /** One provider submission: a document or the text. */
  datatype Part = Document(pdf: Pdf) | Text(body: string)

  datatype RecipientType = Unspecified | Individual | Group | Unsupported

  datatype Provider = Baileys | OfficialApi | OtherProvider(name: string)

  /** A `/v1/send` body whose strings are already trimmed and normalised. */
  datatype Request = Request(
    tenant: string,
    key: string,
    recipientType: RecipientType,
    provider: Provider,
    recipient: string,
    text: string,
    pdfs: seq<Pdf>)

  /** The digest is assumed injective, so a fingerprint is the content it digests. */
  datatype Fingerprint = Fingerprint(group: bool, number: string, text: string, pdfs: seq<Pdf>, provider: Provider)

  function FingerprintOf(q: Request): Fingerprint {
    Fingerprint(q.recipientType.Group?, q.recipient, q.text, q.pdfs, q.provider)
  }

  function PartCount(fp: Fingerprint): nat {
    |fp.pdfs| + if fp.text != "" then 1 else 0
  }

  /** The documents in order, then the text if there is one. */
  function Parts(fp: Fingerprint): (parts: seq<Part>)
    ensures |parts| == PartCount(fp) == |fp.pdfs| + if fp.text == "" then 0 else 1
    ensures forall i | 0 <= i < |fp.pdfs| :: parts[i] == Document(fp.pdfs[i])
    ensures fp.text != "" ==> parts[|fp.pdfs|] == Text(fp.text)
  {
    seq(|fp.pdfs|, i requires 0 <= i < |fp.pdfs| => Document(fp.pdfs[i]))
    + (if fp.text != "" then [Text(fp.text)] else [])
  }

  // ---- validators ----

  const MAX_PDFS: nat := 5
  const MAX_PDF_BYTES: nat := 10 * 1024 * 1024
  const MAX_TEXT: nat := 4096

  predicate Digit(c: char) { '0' <= c <= '9' }

  predicate Lower(c: char) { 'a' <= c <= 'z' }

  predicate Upper(c: char) { 'A' <= c <= 'Z' }

  predicate ValidTenant(t: string) {
    && 3 <= |t| <= 191
    && (Lower(t[0]) || Digit(t[0]))
    && forall i | 0 <= i < |t| :: Lower(t[i]) || Digit(t[i]) || t[i] == '.' || t[i] == '-'
  }

  predicate ValidKey(k: string) {
    && 16 <= |k| <= 190
    && forall i | 0 <= i < |k| :: Lower(k[i]) || Upper(k[i]) || Digit(k[i]) || k[i] in "_.:-"
  }

  predicate ValidNumber(n: string) {
    && 8 <= |n| <= 15
    && n[0] != '0'
    && forall i | 0 <= i < |n| :: Digit(n[i])
  }

  predicate DigitRun(s: string) {
    && 5 <= |s| <= 24
    && forall i | 0 <= i < |s| :: Digit(s[i])
  }

  const GROUP_SUFFIX: string := "@g.us"

  /** One or two runs of 5 to 24 digits, joined by a hyphen, then the group suffix. */
  predicate ValidGroupId(id: string) {
    && |id| >= |GROUP_SUFFIX|
    && id[|id| - |GROUP_SUFFIX|..] == GROUP_SUFFIX
    && var name := id[..|id| - |GROUP_SUFFIX|];
       || DigitRun(name)
       || exists h | 0 <= h < |name| && name[h] == '-' :: DigitRun(name[..h]) && DigitRun(name[h + 1..])
  }

  lemma OneRun(a: string)
    requires DigitRun(a)
    ensures ValidGroupId(a + "@g.us")
  {
    hide DigitRun;
    var id := a + "@g.us";
    assert id[..|id| - 5] == a && id[|id| - 5..] == "@g.us";
  }

  lemma TwoRuns(a: string, b: string)
    requires DigitRun(a) && DigitRun(b)
    ensures ValidGroupId(a + "-" + b + "@g.us")
  {
    hide DigitRun;
    var name := a + "-" + b;
    var id := name + "@g.us";
    assert id[..|id| - 5] == name && id[|id| - 5..] == "@g.us";
    assert name[|a|] == '-' && name[..|a|] == a && name[|a| + 1..] == b;
  }

  lemma DigitRunForm(s: string)
    ensures DigitRun(s) <==> 5 <= |s| <= 24 && forall c | c in s :: '0' <= c <= '9'
  {
    assert forall i | 0 <= i < |s| :: s[i] in s;
  }

  /** A group id is one run of digits, or two joined by a hyphen, before the group suffix. */
  lemma GroupIdForms(id: string)
    ensures ValidGroupId(id) <==>
      || (exists a | DigitRun(a) :: id == a + "@g.us")
      || (exists a, b | DigitRun(a) && DigitRun(b) :: id == a + "-" + b + "@g.us")
  {
    hide DigitRun;
    if ValidGroupId(id) {
      var name := id[..|id| - 5];
      assert id == name + "@g.us";
      if !DigitRun(name) {
        var h :| 0 <= h < |name| && name[h] == '-' && DigitRun(name[..h]) && DigitRun(name[h + 1..]);
        assert name == name[..h] + "-" + name[h + 1..];
      }
    } else {
      hide ValidGroupId;
      forall a | DigitRun(a) ensures id != a + "@g.us" {
        OneRun(a);
      }
      forall a, b | DigitRun(a) && DigitRun(b) ensures id != a + "-" + b + "@g.us" {
        TwoRuns(a, b);
      }
    }
  }

  predicate PdfExtension(s: string) {
    |s| == 4 && s[0] == '.' && s[1] in "pP" && s[2] in "dD" && s[3] in "fF"
  }

  predicate ValidPdf(p: Pdf) {
    && |p.filename| >= 4
    && '/' !in p.filename && '\\' !in p.filename
    && PdfExtension(p.filename[|p.filename| - 4..])
    && "%PDF-" <= p.content
    && |p.content| <= MAX_PDF_BYTES
  }

  predicate ValidPdfs(pdfs: seq<Pdf>) {
    && |pdfs| <= MAX_PDFS
    && forall i | 0 <= i < |pdfs| :: ValidPdf(pdfs[i])
  }
}
