/**
 * The logo uploader (components/logo-upload.tsx): the admission checks on a
 * chosen file and the component's preview state. Reading the file as a
 * data URL is asynchronous in the browser; here its result is a parameter.
 */
module LogoUpload {
  import opened Types

  /** The size limit, 2 MiB; a file of exactly this size is accepted. */
  const MaxLogoBytes: nat := 2 * 1024 * 1024

  const ImageWord := "image"

  /** `type.match("image.*")`: the pattern matches wherever "image" occurs in the type. */
  predicate IsImageType(mimeType: string)
    ensures IsImageType(mimeType) ==> |mimeType| >= |ImageWord|
    ensures |mimeType| >= 5 && mimeType[..5] == ImageWord ==> IsImageType(mimeType)
    decreases |mimeType|
  {
    |mimeType| >= 5 && (mimeType[..5] == ImageWord || IsImageType(mimeType[1..]))
  }

  /** "image" occurs in `t` starting at index `i`. */
  predicate OccursAt(t: string, i: int)
  {
    0 <= i && i + 5 <= |t| && t[i..i + 5] == ImageWord
  }

  /** What the browser reports about the chosen file. */
  datatype FileInfo = FileInfo(mimeType: string, size: nat)

  /** The branch `handleFileChange` takes for a selection. */
  datatype Verdict = NoFile | NotAnImage | TooLarge | Accepted

  /** The three guards of `handleFileChange`, in source order. */
  function Admit(file: Option<FileInfo>): (r: Verdict)
    ensures file.None? <==> r == NoFile
    ensures r == Accepted ==> file.Some? && IsImageType(file.value.mimeType) && file.value.size <= MaxLogoBytes
  {
    match file
    case None => NoFile
    case Some(f) =>
      if !IsImageType(f.mimeType) then NotAnImage
      else if f.size > MaxLogoBytes then TooLarge
      else Accepted
  }

  /** The alert shown for a rejected file; none for no file and for an accepted one. */
  function Alert(v: Verdict): (r: Option<string>)
    ensures r.Some? <==> v == NotAnImage || v == TooLarge
  {
    match v
    case NotAnImage => Some("Please select an image file")
    case TooLarge => Some("File size should be less than 2MB")
    case _ => None
  }

  /** Whether `onLogoChange` was called, and with what. */
  datatype Report = Silent | Notify(logo: Option<string>)

  // ---------------------------------------------------------------- lemmas

  /** The type check is a substring search for "image". */
  lemma {:induction false} ImageTypeIff(mimeType: string)
    ensures IsImageType(mimeType) <==> exists i :: OccursAt(mimeType, i)
    decreases |mimeType|
  {
    if |mimeType| >= 5 {
      ImageTypeIff(mimeType[1..]);
      if mimeType[..5] == ImageWord {
        assert mimeType[0..5] == mimeType[..5];
        assert OccursAt(mimeType, 0);
      }
      if IsImageType(mimeType[1..]) {
        var i :| OccursAt(mimeType[1..], i);
        assert mimeType[i + 1..i + 6] == mimeType[1..][i..i + 5];
        assert OccursAt(mimeType, i + 1);
      }
      if exists i :: OccursAt(mimeType, i) {
        var i :| OccursAt(mimeType, i);
        if i > 0 {
          assert mimeType[1..][i - 1..i + 4] == mimeType[i..i + 5];
          assert OccursAt(mimeType[1..], i - 1);
        } else {
          assert mimeType[..5] == mimeType[i..i + 5];
        }
      }
    } else {
      assert forall i :: !OccursAt(mimeType, i);
    }
  }

  /** Image types pass, and so does a type with "image" further in. */
  lemma ImageTypeAccepts()
    ensures IsImageType("image/png") && IsImageType("x-image")
  {
    assert "image/png"[..5] == ImageWord;
    assert "x-image"[1..][1..][..5] == ImageWord;
  }

  /** A text type and the empty type do not pass. */
  lemma ImageTypeRejects()
    ensures !IsImageType("text/css") && !IsImageType("")
  {
    var t := "text/css";
    assert !IsImageType(t[4..]);
    assert !IsImageType(t[3..]) by { assert t[3..][1..] == t[4..] && t[3..][0] != 'i'; }
    assert !IsImageType(t[2..]) by { assert t[2..][1..] == t[3..] && t[2..][0] != 'i'; }
    assert !IsImageType(t[1..]) by { assert t[1..][1..] == t[2..] && t[1..][0] != 'i'; }
    assert t[0] != 'i';
  }

  /** A file is read exactly when it is an image of at most 2 MiB; the type is checked first. */
  lemma AdmitCases(f: FileInfo)
    ensures Admit(Some(f)) == Accepted <==> IsImageType(f.mimeType) && f.size <= MaxLogoBytes
    ensures !IsImageType(f.mimeType) ==> Admit(Some(f)) == NotAnImage
    ensures IsImageType(f.mimeType) && f.size > MaxLogoBytes ==> Admit(Some(f)) == TooLarge
  {
  }

  /** The limit is inclusive: 2 MiB is accepted, one byte more is not. */
  lemma SizeBoundary(mimeType: string)
    requires IsImageType(mimeType)
    ensures Admit(Some(FileInfo(mimeType, 2097152))) == Accepted
    ensures Admit(Some(FileInfo(mimeType, 2097153))) == TooLarge
  {
  }

  /** The component's state: the preview shown, seeded from the parent's logo when it mounts. */
  class Uploader {
    var previewUrl: Option<string>

    constructor(currentLogo: Option<string>)
      ensures previewUrl == currentLogo
    {
      previewUrl := currentLogo;
    }

    /** Whether the preview (with its remove button) is shown instead of the drop zone. */
    predicate ShowsPreview()
      reads this
    {
      Truthy(previewUrl)
    }

    /**
     * `handleFileChange` followed by the reader's `onload` with `dataUrl`:
     * an accepted file becomes the preview and is reported to the parent;
     * anything else changes nothing and reports nothing.
     */
    method HandleFileChange(file: Option<FileInfo>, dataUrl: string) returns (verdict: Verdict, report: Report)
      modifies this
      ensures verdict == Admit(file)
      ensures verdict == Accepted ==> previewUrl == Some(dataUrl) && report == Notify(Some(dataUrl))
      ensures verdict != Accepted ==> previewUrl == old(previewUrl) && report == Silent
      ensures report.Notify? ==> previewUrl == report.logo
    {
      verdict := Admit(file);
      if verdict != Accepted {
        report := Silent;
        return;
      }
      previewUrl := Some(dataUrl);
      report := Notify(Some(dataUrl));
    }

    /** `removeLogo`: clear the preview and report no logo. */
    method RemoveLogo() returns (report: Report)
      modifies this
      ensures previewUrl == None && !ShowsPreview()
      ensures report == Notify(None)
    {
      previewUrl := None;
      report := Notify(None);
    }
  }
}
