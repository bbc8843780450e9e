/** The form state of the QR-with-logo component and its two handlers:
    choosing a logo file, and generating the QR code with the logo drawn
    over it. The QR encoder, the image loader and the browser's object
    URLs are outside the model; their outcomes are parameters. */
module Form {
  import opened Wrappers
  import Overlay

  /** A file chosen in the file input: its name and its MIME type. */
  datatype File = File(name: string, mimeType: string)

  /** An object URL handed out by the browser for a file; opaque here. */
  datatype ObjectUrl = ObjectUrl(handle: nat)

  /** A thrown error: its `message` property and its string conversion. */
  datatype Thrown = Thrown(message: string, asString: string)

  /** How the QR encoder call ended. */
  datatype Encoding = Encoded | EncodeThrew(thrown: Thrown)

  /** How loading the logo image ended: its pixel dimensions, or the
      image element's error event. */
  datatype Loading = Loaded(width: int, height: int) | LoadFailed

  /** What the preview canvas shows: nothing yet (or just cleared), or the
      QR code for `text` with the logo overlay drawn when there is one. */
  datatype Canvas = Blank | Drawn(text: string, overlay: Option<Overlay.Layout>)

  const InitialValue: string := "https://example.com"
  const PngMessage: string := "Please upload a PNG image (transparent PNG recommended)."
  const EmptyMessage: string := "Please enter a URL or text to encode."
  const LoadFailureMessage: string := "Failed to load image"

  /** `s` has `part` starting at position `i`. */
  predicate OccursAt(s: string, part: string, i: int) {
    0 <= i && i + |part| <= |s| && s[i..i + |part|] == part
  }

  /** `String.prototype.includes`: `part` is a substring of `s`. */
  predicate Contains(s: string, part: string)
    ensures Contains(s, part) ==> |part| <= |s|
    ensures part == [] ==> Contains(s, part)
    decreases |s|
  {
    if |s| < |part| then false
    else s[..|part|] == part || (s != [] && Contains(s[1..], part))
  }

  /** `Contains` finds exactly the positions where `part` occurs. */
  lemma {:induction false} ContainsIffOccurs(s: string, part: string)
    ensures Contains(s, part) <==> exists i :: OccursAt(s, part, i)
  {
    if |s| < |part| {
    } else if s[..|part|] == part {
      assert OccursAt(s, part, 0);
    } else {
      assert s != [];
      ContainsIffOccurs(s[1..], part);
      if Contains(s[1..], part) {
        var i :| OccursAt(s[1..], part, i);
        assert s[1..][i..i + |part|] == s[i + 1..i + 1 + |part|];
        assert OccursAt(s, part, i + 1);
      }
      if exists i :: OccursAt(s, part, i) {
        var i :| OccursAt(s, part, i);
        assert i != 0;
        assert s[i..i + |part|] == s[1..][i - 1..i - 1 + |part|];
        assert OccursAt(s[1..], part, i - 1);
      }
    }
  }

  /** The component accepts a file whose type mentions "png". */
  predicate IsPng(f: File)
    ensures IsPng(f) <==> exists i :: OccursAt(f.mimeType, "png", i)
  {
    ContainsIffOccurs(f.mimeType, "png");
    Contains(f.mimeType, "png")
  }

  /** A PNG's MIME type passes the check and a JPEG's does not. */
  lemma MimeTypeExamples()
    ensures IsPng(File("logo.png", "image/png"))
    ensures !IsPng(File("logo.jpg", "image/jpeg"))
    ensures !IsPng(File("logo", ""))
  {
    var png, jpeg := "image/png", "image/jpeg";
    assert png[6..9] == "png";
    assert OccursAt(png, "png", 6);
    ContainsIffOccurs(png, "png");
    forall i | 0 <= i <= |jpeg| - 3 ensures !OccursAt(jpeg, "png", i) {
      assert jpeg[i..i + 3][0] == jpeg[i] && jpeg[i..i + 3][1] == jpeg[i + 1];
      assert jpeg[i] != 'p' || jpeg[i + 1] != 'n';
    }
    ContainsIffOccurs(jpeg, "png");
  }

  /** The message shown for a thrown error: its message, or its string
      form when the message is empty. */
  function Describe(e: Thrown): (s: string)
    ensures e.message != "" ==> s == e.message
    ensures e.message == "" ==> s == e.asString
    ensures s != "" <==> e.message != "" || e.asString != ""
  {
    if e.message != "" then e.message else e.asString
  }

  /** The first file of the input's file list, if any. */
  function FirstFile(files: seq<File>): (f: Option<File>)
    ensures f.Some? <==> files != []
    ensures f.Some? ==> f.value == files[0]
  {
    if files == [] then None else Some(files[0])
  }

  /** The component's state. */
  class QrForm {
    var value: string
    var logoFile: Option<File>
    var logoPreview: Option<ObjectUrl>
    var error: Option<string>
    var generating: bool
    var canvas: Canvas

    /** A preview exists exactly when a file is held, and a held file is
        a PNG. */
    ghost predicate LogoConsistent()
      reads this
    {
      && (logoFile.Some? <==> logoPreview.Some?)
      && (logoFile.Some? ==> IsPng(logoFile.value))
    }

    /** Between handler calls: the logo state is consistent and no
        generation is in progress. */
    ghost predicate Valid()
      reads this
    {
      LogoConsistent() && !generating
    }

    constructor ()
      ensures Valid()
      ensures value == InitialValue && logoFile == None && logoPreview == None
      ensures error == None && !generating && canvas == Blank
    {
      value := InitialValue;
      logoFile := None;
      logoPreview := None;
      error := None;
      generating := false;
      canvas := Blank;
    }

    /** Typing in the text field replaces the value to encode. */
    method EditValue(s: string)
      modifies this
      ensures value == s
      ensures logoFile == old(logoFile) && logoPreview == old(logoPreview)
      ensures error == old(error) && generating == old(generating) && canvas == old(canvas)
    {
      value := s;
    }

    /** The file input changed: `files` is its new file list and `url` the
        object URL the browser would create for its first file. The input
        stays enabled while a generation is pending, so this may run with
        `generating` set; the flag is left as it was. Both logo fields are
        overwritten, so the handler restores the logo invariant from any
        state. */
    method HandleFile(files: seq<File>, url: ObjectUrl)
      modifies this
      ensures LogoConsistent()
      ensures old(Valid()) ==> Valid()
      ensures var f := FirstFile(files);
        if f.Some? && !IsPng(f.value) then
          error == Some(PngMessage) && logoFile == None && logoPreview == None
        else
          error == None && logoFile == f
          && logoPreview == (if f.Some? then Some(url) else None)
      ensures value == old(value) && generating == old(generating) && canvas == old(canvas)
    {
      error := None;
      var f := FirstFile(files);
      if f.Some? && !IsPng(f.value) {
        error := Some(PngMessage);
        logoFile := None;
        logoPreview := None;
        return;
      }
      logoFile := f;
      if f.Some? {
        logoPreview := Some(url);
      } else {
        logoPreview := None;
      }
    }

    /** The Generate button: `encoding` is how the QR encoder ends and
        `loading` how loading the held logo ends (consulted only when the
        encoder succeeded and a logo is held). `busy` is the `generating`
        flag while the encoder and loader run. */
    method Generate(encoding: Encoding, loading: Loading) returns (ghost busy: bool)
      requires Valid()
      requires loading.Loaded? ==> loading.width > 0 && loading.height > 0
      modifies this
      ensures Valid()
      ensures value == old(value) && logoFile == old(logoFile) && logoPreview == old(logoPreview)
      ensures old(value) == "" ==> error == Some(EmptyMessage) && canvas == old(canvas) && !busy
      ensures old(value) != "" ==> busy
      ensures old(value) != "" && encoding.EncodeThrew? ==>
        error == Some(Describe(encoding.thrown)) && canvas == Blank
      ensures old(value) != "" && encoding.Encoded? && logoFile.None? ==>
        error == None && canvas == Drawn(value, None)
      ensures old(value) != "" && encoding.Encoded? && logoFile.Some? && loading.LoadFailed? ==>
        error == Some(LoadFailureMessage) && canvas == Drawn(value, None)
      ensures old(value) != "" && encoding.Encoded? && logoFile.Some? && loading.Loaded? ==>
        error == None
        && canvas == Drawn(value, Some(Overlay.ComputeLayout(
                                         Overlay.DisplaySize, loading.width, loading.height)))
    {
      error := None;
      if value == "" {
        error := Some(EmptyMessage);
        busy := false;
        return;
      }
      generating := true;
      busy := generating;
      // Resizing the canvas clears it.
      canvas := Blank;
      match encoding {
        case EncodeThrew(thrown) =>
          error := Some(Describe(thrown));
        case Encoded =>
          canvas := Drawn(value, None);
          if logoFile.Some? {
            match loading {
              case LoadFailed =>
                error := Some(Describe(Thrown(LoadFailureMessage, "Error: " + LoadFailureMessage)));
              case Loaded(width, height) =>
                var layout := Overlay.ComputeLayout(Overlay.DisplaySize, width, height);
                canvas := Drawn(value, Some(layout));
            }
          }
      }
      generating := false;
    }
  }
}
