/** File handling helpers of the Flask backend (backend/app.py): the extension
    allow-list for uploads and the attachment summary built by the grievance
    analysis endpoint. */
module Uploads {
  import opened Options
  import opened Strings
  import opened PyValue

  /** ALLOWED_EXTENSIONS. */
  const AllowedExtensions: set<string> := {"txt", "pdf", "png", "jpg", "jpeg", "doc", "docx"}

  /** `allowed_file(filename)`. */
  function AllowedFile(filename: string): bool
  {
    '.' in filename && ToLower(AfterLast(filename, '.')) in AllowedExtensions
  }

  /** A name that ends in a dot followed by a dot-free text has that text as
      its extension. */
  lemma {:induction false} AfterLastOf(stem: string, ext: string)
    requires '.' !in ext
    ensures AfterLast(stem + "." + ext, '.') == ext
    decreases |ext|
  {
    var f := stem + "." + ext;
    if ext != "" {
      var init := ext[..|ext| - 1];
      assert f[|f| - 1] == ext[|ext| - 1];
      assert f[..|f| - 1] == stem + "." + init;
      AfterLastOf(stem, init);
      assert init + [ext[|ext| - 1]] == ext;
    } else {
      assert f[|f| - 1] == '.';
    }
  }

  /** A file is allowed exactly when its name ends in a dot followed by a
      dot-free extension whose lower-case form is on the allow-list. */
  lemma AllowedFileIff(filename: string)
    ensures AllowedFile(filename) <==>
      exists ext :: '.' !in ext && EndsWith(filename, "." + ext) && ToLower(ext) in AllowedExtensions
  {
    if AllowedFile(filename) {
      AllowedHasExtension(filename);
    }
    if exists ext :: '.' !in ext && EndsWith(filename, "." + ext) && ToLower(ext) in AllowedExtensions {
      var ext :| '.' !in ext && EndsWith(filename, "." + ext) && ToLower(ext) in AllowedExtensions;
      ExtensionOf(filename, ext);
    }
  }

  /** An allowed name ends in a dot and the text after its last dot. */
  lemma AllowedHasExtension(filename: string)
    requires '.' in filename
    ensures var ext := AfterLast(filename, '.');
      '.' !in ext && EndsWith(filename, "." + ext)
  {
    var ext := AfterLast(filename, '.');
    assert filename[|filename| - |ext| - 1..] == "." + ext;
  }

  /** The text after a final dot is the extension `rsplit` finds. */
  lemma ExtensionOf(filename: string, ext: string)
    requires '.' !in ext && EndsWith(filename, "." + ext)
    ensures '.' in filename && AfterLast(filename, '.') == ext
  {
    var stem := filename[..|filename| - |ext| - 1];
    assert filename == stem + "." + ext;
    AfterLastOf(stem, ext);
    assert filename[|stem|] == '.';
  }

  /** Extension matching ignores ASCII case: `report.PDF` is accepted. */
  lemma UpperCaseExtensionAllowed(stem: string)
    ensures AllowedFile(stem + ".PDF")
  {
    AfterLastOf(stem, "PDF");
    assert (stem + ".PDF")[|stem|] == '.';
    var lowered := ToLower("PDF");
    assert lowered[0] == 'p' && lowered[1] == 'd' && lowered[2] == 'f';
    assert lowered == "pdf";
  }

  /** A name with no dot, or ending in a dot, is refused. */
  lemma NoExtensionRefused(stem: string)
    ensures !AllowedFile(stem + ".")
  {
    AfterLastOf(stem, "");
    assert stem + "." + "" == stem + ".";
  }

  // ---------------------------------------------------------------------------
  // process_attachments
  // ---------------------------------------------------------------------------

  /** One entry of the summary list: name, type and decoded size in bytes. */
  datatype ProcessedAttachment = ProcessedAttachment(name: Value, mimeType: Value, size: nat)

  /** `s.split(',')[-1]`: the text after the last comma (the data-URL payload). */
  function DataUrlPayload(s: string): string
  {
    var pieces := Split(s, ",");
    pieces[|pieces| - 1]
  }

  /** The summary of one attachment, or None when it is skipped: no truthy
      `base64` entry, a non-string one (`.split` raises), or a payload the
      decoder rejects. `decode` stands for `base64.b64decode` followed by `len`. */
  function ProcessOne(attachment: map<string, Value>, decode: string -> Option<nat>): Option<ProcessedAttachment>
  {
    if "base64" in attachment && Truthy(attachment["base64"]) && attachment["base64"].Str? then
      match decode(DataUrlPayload(attachment["base64"].s))
      case None => None
      case Some(size) =>
        Some(ProcessedAttachment(
          if "name" in attachment then attachment["name"] else Str("unknown"),
          if "type" in attachment then attachment["type"] else Str("unknown"),
          size))
    else None
  }

  /** The summaries of the attachments that are not skipped, in input order. */
  function ProcessAll(attachments: seq<map<string, Value>>, decode: string -> Option<nat>): (r: seq<ProcessedAttachment>)
    ensures |r| <= |attachments|
  {
    if attachments == [] then []
    else
      var prefix := ProcessAll(attachments[..|attachments| - 1], decode);
      match ProcessOne(attachments[|attachments| - 1], decode)
      case None => prefix
      case Some(p) => prefix + [p]
  }

  /** `process_attachments(attachments)`: every attachment whose payload decodes
      contributes one summary; the others are skipped, never raising. */
  method ProcessAttachments(attachments: seq<map<string, Value>>, decode: string -> Option<nat>)
    returns (processed: seq<ProcessedAttachment>)
    ensures processed == ProcessAll(attachments, decode)
  {
    processed := [];
    var i := 0;
    while i < |attachments|
      invariant 0 <= i <= |attachments|
      invariant processed == ProcessAll(attachments[..i], decode)
    {
      assert attachments[..i + 1][..i] == attachments[..i];
      var one := ProcessOne(attachments[i], decode);
      if one.Some? {
        processed := processed + [one.value];
      }
      i := i + 1;
    }
    assert attachments[..|attachments|] == attachments;
  }

  /** The summaries of one attachment: its own, or none when it is skipped. */
  function SummaryOf(attachment: map<string, Value>, decode: string -> Option<nat>): seq<ProcessedAttachment>
  {
    match ProcessOne(attachment, decode)
    case None => []
    case Some(p) => [p]
  }

  /** Processing two runs of attachments one after the other gives the
      summaries of the first run followed by those of the second: nothing is
      dropped, duplicated or reordered. */
  lemma {:induction false} ProcessAllConcat(first: seq<map<string, Value>>, second: seq<map<string, Value>>,
                                            decode: string -> Option<nat>)
    ensures ProcessAll(first + second, decode) == ProcessAll(first, decode) + ProcessAll(second, decode)
    decreases |second|
  {
    if second == [] {
      assert first + second == first;
    } else {
      var init := second[..|second| - 1];
      var last := second[|second| - 1];
      ProcessAllConcat(first, init, decode);
      assert (first + second)[..|first + second| - 1] == first + init;
      assert (first + second)[|first + second| - 1] == last;
    }
  }

  /** Each attachment contributes exactly its own summary, at the position of
      the attachments before it: the summary list is the concatenation, in
      input order, of the per-attachment summaries. */
  lemma {:induction false} ProcessAllSummaries(attachments: seq<map<string, Value>>, decode: string -> Option<nat>, i: int)
    requires 0 <= i < |attachments|
    ensures ProcessAll(attachments, decode) ==
      ProcessAll(attachments[..i], decode) + SummaryOf(attachments[i], decode) + ProcessAll(attachments[i + 1..], decode)
  {
    var before, here, after := attachments[..i], [attachments[i]], attachments[i + 1..];
    assert attachments == before + here + after;
    ProcessAllConcat(before + here, after, decode);
    ProcessAllConcat(before, here, decode);
    assert here[..0] == [];
    assert ProcessAll(here, decode) == SummaryOf(attachments[i], decode);
  }

  /** Every attachment that is not skipped has its summary in the list. */
  lemma ProcessAllComplete(attachments: seq<map<string, Value>>, decode: string -> Option<nat>, i: int)
    requires 0 <= i < |attachments|
    ensures ProcessOne(attachments[i], decode).Some? ==>
      ProcessOne(attachments[i], decode).value in ProcessAll(attachments, decode)
  {
    ProcessAllSummaries(attachments, decode, i);
  }

  /** Every summary comes from one of the attachments: one that carries a
      non-empty base64 string whose payload decodes to that size. */
  lemma {:induction false} ProcessAllSizes(attachments: seq<map<string, Value>>, decode: string -> Option<nat>)
    ensures forall p :: p in ProcessAll(attachments, decode) ==>
      exists a :: a in attachments && ProcessOne(a, decode) == Some(p)
    decreases |attachments|
  {
    if attachments != [] {
      var init := attachments[..|attachments| - 1];
      ProcessAllSizes(init, decode);
      forall p | p in ProcessAll(attachments, decode)
        ensures exists a :: a in attachments && ProcessOne(a, decode) == Some(p)
      {
        if p in ProcessAll(init, decode) {
          var a :| a in init && ProcessOne(a, decode) == Some(p);
          assert a in attachments;
        } else {
          assert ProcessOne(attachments[|attachments| - 1], decode) == Some(p);
        }
      }
    }
  }
}
