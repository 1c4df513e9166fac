/** The file input of TerminalFormChat: which picked files it keeps, the message
    it shows for the ones it drops, and how the kept files are recorded per field
    (in the order the fields first received files, as the keys of an object). */
module TerminalPicker {
  import opened Wrappers
  import opened Text
  import opened TerminalFields

  /** The masks of the default accept string, "application/pdf" and ".pdf". */
  const DefaultPickerMasks: seq<string> := ["application/pdf", ".pdf"]

  /** The masks the picker tests: those of the field's accept string when it is
      a non-empty string, those of the PDF default otherwise. */
  function PickerMasks(accept: Option<string>): seq<string> {
    if accept.Some? && accept.value != "" then Masks(accept.value) else DefaultPickerMasks
  }

  /** `name.toLowerCase().split('.').pop()`: the text after the last '.', or the
      whole lowercased name when it has no '.'. */
  function Extension(name: string): (r: string)
    ensures '.' !in r
    ensures EndsWith(ToLower(name), r)
  {
    var parts := Split(ToLower(name), '.');
    SplitLastIsSuffix(ToLower(name), '.');
    parts[|parts| - 1]
  }

  /** The last piece of a split is a suffix of the string. */
  lemma {:induction false} SplitLastIsSuffix(s: string, sep: char)
    ensures EndsWith(s, Split(s, sep)[|Split(s, sep)| - 1])
  {
    if s != [] {
      var rest := Split(s[1..], sep);
      var last := rest[|rest| - 1];
      SplitLastIsSuffix(s[1..], sep);
      if s[0] != sep && |rest| == 1 {
        JoinSplit(s[1..], sep);
        assert Split(s, sep)[0] == s;
      } else {
        assert Split(s, sep)[|Split(s, sep)| - 1] == last;
        EndsWithCons(s, last);
      }
    }
  }

  lemma EndsWithCons(s: string, p: string)
    requires s != [] && EndsWith(s[1..], p)
    ensures EndsWith(s, p)
  {
    assert s[|s| - |p|..] == s[1..][|s| - 1 - |p|..];
  }

  /** With no (or an empty) accept string a field takes PDFs: a file passes the
      type check exactly when its MIME type is "application/pdf" or its name ends
      in ".pdf" in any case. */
  lemma DefaultMaskAcceptsPdf(accept: Option<string>, f: FileInfo)
    requires accept.None? || accept.value == ""
    ensures PickerAccepts(accept, f) <==> f.mime == "application/pdf" || Extension(f.name) == "pdf"
  {
    var pdf := "application/pdf";
    var masks := PickerMasks(accept);
    assert masks == [pdf, ".pdf"];
    assert PickerMaskAccepts(masks[0], f) <==> f.mime == pdf by {
      assert !EndsWith(pdf, "/*") by { assert pdf[|pdf| - 1] == 'f'; }
      assert pdf != "*/*" by { assert |pdf| != 3; }
      assert pdf != ".pdf" by { assert |pdf| != 4; }
    }
    assert PickerMaskAccepts(masks[1], f) <==> Extension(f.name) == "pdf";
    if PickerAccepts(accept, f) {
      var k :| 0 <= k < |masks| && PickerMaskAccepts(masks[k], f);
      assert k == 0 || k == 1;
    }
    if f.mime == pdf {
      assert PickerMaskAccepts(masks[0], f);
    } else if Extension(f.name) == "pdf" {
      assert PickerMaskAccepts(masks[1], f);
    }
  }

  /** Two trimmed masks without commas, joined by a comma, read back as those two. */
  lemma MasksOfTwo(a: string, b: string)
    requires ',' !in a && ',' !in b && Trim(a) == a && Trim(b) == b
    ensures |Masks(a + [','] + b)| == 2 && Masks(a + [','] + b)[0] == a && Masks(a + [','] + b)[1] == b
  {
    SplitTwo(a, b, ',');
  }

  /** One mask of the picker: ".pdf" tests the extension, the other masks are
      read as by the stage validator. */
  predicate PickerMaskAccepts(mask: string, f: FileInfo) {
    if mask == ".pdf" then Extension(f.name) == "pdf" else MimeMaskAccepts(mask, f.mime)
  }

  /** The `accept(file)` test of the picker: some mask accepts the file. */
  predicate PickerAccepts(accept: Option<string>, f: FileInfo) {
    var masks := PickerMasks(accept);
    exists k :: 0 <= k < |masks| && PickerMaskAccepts(masks[k], f)
  }

  /** A file survives the filter: accepted type and within the size cap. */
  predicate Passes(accept: Option<string>, maxBytes: nat, f: FileInfo) {
    PickerAccepts(accept, f) && f.size <= maxBytes
  }

  /** `files.filter(...)`: the files that pass, in their order. */
  function Kept(files: seq<FileInfo>, accept: Option<string>, maxBytes: nat): (r: seq<FileInfo>)
    ensures |r| <= |files|
  {
    if files == [] then []
    else
      var last := files[|files| - 1];
      Kept(files[..|files| - 1], accept, maxBytes) + (if Passes(accept, maxBytes, last) then [last] else [])
  }

  /** The number of files of a type the picker refuses (`invalidType`). */
  function CountWrongType(files: seq<FileInfo>, accept: Option<string>): nat {
    if files == [] then 0
    else CountWrongType(files[..|files| - 1], accept) + (if PickerAccepts(accept, files[|files| - 1]) then 0 else 1)
  }

  /** The number of files over the size cap (`tooBig`). */
  function CountTooBig(files: seq<FileInfo>, maxBytes: nat): nat {
    if files == [] then 0
    else CountTooBig(files[..|files| - 1], maxBytes) + (if files[|files| - 1].size <= maxBytes then 0 else 1)
  }

  /** A file is kept exactly when it was picked and passes both checks. */
  lemma {:induction false} KeptIff(files: seq<FileInfo>, accept: Option<string>, maxBytes: nat)
    ensures forall f :: f in Kept(files, accept, maxBytes) <==> f in files && Passes(accept, maxBytes, f)
  {
    if files != [] {
      var init := files[..|files| - 1];
      KeptIff(init, accept, maxBytes);
      assert files == init + [files[|files| - 1]];
    }
  }

  /** The filter keeps the picked order: filtering a concatenation filters each
      part and concatenates the results. */
  lemma {:induction false} KeptAppend(a: seq<FileInfo>, b: seq<FileInfo>, accept: Option<string>, maxBytes: nat)
    ensures Kept(a + b, accept, maxBytes) == Kept(a, accept, maxBytes) + Kept(b, accept, maxBytes)
  {
    if b == [] {
      assert a + b == a;
    } else {
      var init, last := b[..|b| - 1], b[|b| - 1];
      var keep := if Passes(accept, maxBytes, last) then [last] else [];
      KeptAppend(a, init, accept, maxBytes);
      assert (a + b)[..|a + b| - 1] == a + init && (a + b)[|a + b| - 1] == last;
      assert Kept(a + b, accept, maxBytes) == Kept(a + init, accept, maxBytes) + keep;
      assert Kept(b, accept, maxBytes) == Kept(init, accept, maxBytes) + keep;
    }
  }

  /** Nothing is dropped exactly when no file has a refused type and none is too
      big. */
  lemma {:induction false} KeptAllIff(files: seq<FileInfo>, accept: Option<string>, maxBytes: nat)
    ensures Kept(files, accept, maxBytes) == files <==>
      CountWrongType(files, accept) == 0 && CountTooBig(files, maxBytes) == 0
  {
    if files != [] {
      var init := files[..|files| - 1];
      KeptAllIff(init, accept, maxBytes);
      assert files == init + [files[|files| - 1]];
    }
  }

  /** When every picked file is dropped and none for its type, every file was
      too big: the size message never shows for a pick that had no big file. */
  lemma {:induction false} NothingKeptNoWrongType(files: seq<FileInfo>, accept: Option<string>, maxBytes: nat)
    requires Kept(files, accept, maxBytes) == [] && CountWrongType(files, accept) == 0
    ensures CountTooBig(files, maxBytes) == |files|
  {
    if files != [] {
      NothingKeptNoWrongType(files[..|files| - 1], accept, maxBytes);
    }
  }

  const TypeMessage: string := "Unsupported file type. Please attach a PDF."

  /** `File too large. Max ${maxSizeMB}MB.` */
  function SizeMessage(maxSizeMB: nat): string {
    "File too large. Max " + NatToString(maxSizeMB) + "MB."
  }

  /** The notes on ignored files: the count for type, then the count for size,
      each only when not zero. */
  function IgnoredNotes(invalidType: nat, tooBig: nat): (notes: seq<string>)
    ensures |notes| == (if invalidType > 0 then 1 else 0) + (if tooBig > 0 then 1 else 0)
  {
    (if invalidType > 0 then [TypeNote(invalidType)] else [])
    + (if tooBig > 0 then [SizeNote(tooBig)] else [])
  }

  /** `${n} file(s) ignored (type)` */
  function TypeNote(n: nat): string {
    NatToString(n) + " file(s) ignored (type)"
  }

  /** `${n} file(s) ignored (size)` */
  function SizeNote(n: nat): string {
    NatToString(n) + " file(s) ignored (size)"
  }

  /** The error the picker records for the field (`None` is `undefined`). */
  function PickError(picked: nat, kept: nat, invalidType: nat, tooBig: nat, maxSizeMB: nat): (r: Option<string>)
    ensures picked == 0 ==> r.None?
    ensures picked > 0 && kept == 0 ==> r == Some(if invalidType > 0 then TypeMessage else SizeMessage(maxSizeMB))
    ensures picked > 0 && kept > 0 ==> (r.None? <==> invalidType == 0 && tooBig == 0)
  {
    if picked == 0 then None
    else if kept == 0 then Some(if invalidType > 0 then TypeMessage else SizeMessage(maxSizeMB))
    else
      var notes := IgnoredNotes(invalidType, tooBig);
      if |notes| > 0 then Some(Join(notes, ", ")) else None
  }

  /** A pick that kept some files but dropped one for each reason reports both
      counts, type first. */
  lemma BothNotes(picked: nat, kept: nat, invalidType: nat, tooBig: nat, maxSizeMB: nat)
    requires picked > 0 && kept > 0 && invalidType > 0 && tooBig > 0
    ensures PickError(picked, kept, invalidType, tooBig, maxSizeMB) ==
      Some(TypeNote(invalidType) + ", " + SizeNote(tooBig))
  {
    var notes := IgnoredNotes(invalidType, tooBig);
    assert notes[1..] == [notes[1]];
    assert Join(notes[1..], ", ") == notes[1];
  }

  // ---------------------------------------------------------------------------
  // The uploads of the session

  /** The field names of the upload entries, in key order. */
  function UploadFields(uploads: seq<Upload>): (r: seq<string>)
    ensures |r| == |uploads| && forall k :: 0 <= k < |uploads| ==> r[k] == uploads[k].field
  {
    seq(|uploads|, k requires 0 <= k < |uploads| => uploads[k].field)
  }

  /** No field has two entries, as the keys of an object. */
  predicate DistinctFields(uploads: seq<Upload>) {
    forall i, j :: 0 <= i < j < |uploads| ==> uploads[i].field != uploads[j].field
  }

  /** `{ ...prev, [name]: files }`: an existing key keeps its place, a new key is
      added last. */
  function SetUpload(uploads: seq<Upload>, name: string, files: seq<FileInfo>): (r: seq<Upload>)
    ensures name in UploadFields(uploads) ==> UploadFields(r) == UploadFields(uploads)
    ensures name !in UploadFields(uploads) ==> UploadFields(r) == UploadFields(uploads) + [name]
  {
    if uploads == [] then [Upload(name, files)]
    else
      UploadFieldsCons(uploads[0], uploads[1..]);
      assert uploads == [uploads[0]] + uploads[1..];
      if uploads[0].field == name then
        UploadFieldsCons(Upload(name, files), uploads[1..]);
        [Upload(name, files)] + uploads[1..]
      else
        var rest := SetUpload(uploads[1..], name, files);
        UploadFieldsCons(uploads[0], rest);
        [uploads[0]] + rest
  }

  lemma UploadFieldsCons(u: Upload, rest: seq<Upload>)
    ensures UploadFields([u] + rest) == [u.field] + UploadFields(rest)
  {
    var all := [u] + rest;
    var a, b := UploadFields(all), [u.field] + UploadFields(rest);
    forall k | 0 <= k < |a| ensures a[k] == b[k] {
      if k > 0 {
        assert all[k] == rest[k - 1];
      }
    }
  }

  /** After recording, the field has exactly the recorded files and every other
      field keeps its files. */
  lemma {:induction false} SetUploadFiles(uploads: seq<Upload>, name: string, files: seq<FileInfo>, other: string)
    ensures FilesOf(SetUpload(uploads, name, files), name) == files
    ensures other != name ==> FilesOf(SetUpload(uploads, name, files), other) == FilesOf(uploads, other)
  {
    if uploads != [] && uploads[0].field != name {
      SetUploadFiles(uploads[1..], name, files, other);
      assert SetUpload(uploads, name, files)[1..] == SetUpload(uploads[1..], name, files);
    }
  }

  /** Recording files never gives a field two entries. */
  lemma SetUploadDistinct(uploads: seq<Upload>, name: string, files: seq<FileInfo>)
    requires DistinctFields(uploads)
    ensures DistinctFields(SetUpload(uploads, name, files))
  {
    var r := SetUpload(uploads, name, files);
    var before := UploadFields(uploads);
    var after := UploadFields(r);
    forall i, j | 0 <= i < j < |r| ensures r[i].field != r[j].field {
      assert after[i] == r[i].field && after[j] == r[j].field;
      if name !in before && j == |before| {
        assert after[i] == before[i];
      }
    }
  }

  // ---------------------------------------------------------------------------
  // The picker and the stage validator disagree on ".pdf"

  /** A required file field whose accept string is ".pdf": the picker keeps
      every file named "*.pdf" within the cap, while the stage validator reads
      ".pdf" as an exact MIME type, which no attached file has, so one such file
      keeps the field from passing. */
  lemma PdfExtensionMaskDisagrees(field: FormField, ctx: FieldContext, f: FileInfo)
    requires field.kind == FileField && field.required && field.accept == Some(".pdf")
    requires !IsToggledOff(ctx.toggled, field.name)
    requires f in FilesOf(ctx.uploads, field.name) && f.mime != ".pdf"
    ensures Extension(f.name) == "pdf" && f.size <= MaxBytes(field.maxSizeMB) ==>
      Passes(field.accept, MaxBytes(field.maxSizeMB), f)
    ensures !FieldValid(field, ctx)
  {
    PickerKeepsByExtension(field.accept.value, f);
    PdfFieldValidIff(field, ctx);
  }

  /** With accept ".pdf" a required field passes exactly when it has files and
      each is within the cap and has the MIME type ".pdf" itself. */
  lemma PdfFieldValidIff(field: FormField, ctx: FieldContext)
    requires field.kind == FileField && field.required && field.accept == Some(".pdf")
    requires !IsToggledOff(ctx.toggled, field.name)
    ensures var files := FilesOf(ctx.uploads, field.name);
      FieldValid(field, ctx) <==>
        |files| > 0 && forall k :: 0 <= k < |files| ==>
          files[k].size <= MaxBytes(field.maxSizeMB) && files[k].mime == ".pdf"
  {
    var files := FilesOf(ctx.uploads, field.name);
    forall k | 0 <= k < |files|
      ensures TypeAccepted(field.accept, files[k].mime) <==> files[k].mime == ".pdf"
    {
      DotPdfMaskExact(field.accept.value, files[k].mime);
    }
  }

  /** The picker's ".pdf" mask keeps a file exactly when its extension is "pdf". */
  lemma PickerKeepsByExtension(mask: string, f: FileInfo)
    requires mask == ".pdf"
    ensures PickerAccepts(Some(mask), f) <==> Extension(f.name) == "pdf"
  {
    PdfMaskIsOne(mask);
    PickerSingleMask(mask, f);
  }

  /** An accept string that is one mask is tested by that mask alone. */
  lemma PickerSingleMask(mask: string, f: FileInfo)
    requires mask != "" && |Masks(mask)| == 1 && Masks(mask)[0] == mask
    ensures PickerAccepts(Some(mask), f) <==> PickerMaskAccepts(mask, f)
  {
    assert PickerMasks(Some(mask))[0] == mask;
  }

  /** The accept string ".pdf" is the single mask ".pdf". */
  lemma PdfMaskIsOne(mask: string)
    requires mask == ".pdf"
    ensures |Masks(mask)| == 1 && Masks(mask)[0] == mask
  {
    assert ',' !in mask;
    TrimUnchanged(mask);
    MasksOfOne(mask);
  }

  /** The validator has no extension case: ".pdf" accepts only the MIME type
      ".pdf", so it refuses "application/pdf". */
  lemma DotPdfMaskExact(mask: string, mime: string)
    requires mask == ".pdf"
    ensures TypeAccepted(Some(mask), mime) <==> mime == mask
  {
    PdfMaskIsOne(mask);
    TypeAcceptedSingle(mask, mime);
    assert !EndsWith(mask, "/*") by { assert mask[|mask| - 1] == 'f'; }
    assert mask != "*/*" by { assert |mask| != 3; }
  }

  /** The mask "*" + "/" + "*" ends in "/" + "*", so it is read as a prefix test:
      removing that suffix leaves "*", and only MIME types starting with '*'
      pass; the test for the whole mask that follows is never reached, and an
      accept string of just this mask refuses every real MIME type. */
  lemma WildcardMaskIsPrefixStar(mask: string, mime: string)
    requires mask == "*/*"
    ensures TypeAccepted(Some(mask), mime) <==> StartsWith(mime, "*")
  {
    assert ',' !in mask;
    TrimUnchanged(mask);
    MasksOfOne(mask);
    TypeAcceptedSingle(mask, mime);
    assert EndsWith(mask, "/*") by { assert mask[|mask| - 2..] == "/*"; }
    WildcardPrefix(mask);
  }

  lemma WildcardPrefix(mask: string)
    requires mask == "*/*"
    ensures ReplaceFirst(mask, "/*", "") == "*"
  {
    var t := "/*";
    assert OccursAt(mask, t, 1) by { assert mask[1..3] == t; }
    assert !OccursAt(mask, t, 0) by { assert mask[0..2][0] != t[0]; }
    var i := IndexOf(mask, t);
    assert i == 1;
    assert mask[..1] + "" + mask[3..] == "*";
  }

  /** An accept string that is one plain MIME mask refuses every other type. */
  lemma SingleMaskRefuses(mask: string, mime: string)
    requires ',' !in mask && Trim(mask) == mask && mask != ""
    requires !EndsWith(mask, "/*") && mask != "*/*" && mime != mask
    ensures !TypeAccepted(Some(mask), mime)
  {
    MasksOfOne(mask);
    TypeAcceptedSingle(mask, mime);
  }

  /** An accept string that is one mask is tested by that mask alone. */
  lemma TypeAcceptedSingle(mask: string, mime: string)
    requires mask != "" && |Masks(mask)| == 1 && Masks(mask)[0] == mask
    ensures TypeAccepted(Some(mask), mime) <==> MimeMaskAccepts(mask, mime)
  {
    var masks := Masks(mask);
    if TypeAccepted(Some(mask), mime) {
      var k :| 0 <= k < |masks| && MimeMaskAccepts(masks[k], mime);
      assert k == 0;
    }
    if MimeMaskAccepts(mask, mime) {
      assert MimeMaskAccepts(masks[0], mime);
    }
  }

  /** An accept string without commas is one mask, itself when trimmed. */
  lemma MasksOfOne(a: string)
    requires ',' !in a && Trim(a) == a
    ensures |Masks(a)| == 1 && Masks(a)[0] == a
  {
    SplitNoSep(a, ',');
  }
}
