/** The upload component (`FileUpload`): the type and size check applied to a chosen or
    dropped file, the drag highlight, and the removal of the selection. */
module Upload {
  import opened Common
  import opened Http

  /** The outcome of `handleFile`'s two checks. */
  datatype Check = WrongType | TooLarge | Accepted

  /** 5 MiB, the largest size accepted. */
  const MaxSize: nat := 5 * 1024 * 1024
  const WrongTypeAlert: string := "Please upload a PDF or DOCX file."
  const TooLargeAlert: string := "File size must be less than 5MB."

  /** The type is checked first, so a file that fails both checks is reported as a type error. */
  function CheckFile(f: UploadFile): (c: Check)
    ensures c == Accepted <==> f.mimeType in AllowedTypes && f.size <= MaxSize
    ensures c == WrongType <==> f.mimeType !in AllowedTypes
    ensures c == TooLarge <==> f.mimeType in AllowedTypes && f.size > MaxSize
  {
    if f.mimeType !in AllowedTypes then WrongType
    else if f.size > MaxSize then TooLarge
    else Accepted
  }

  /** The limit is inclusive: exactly 5,242,880 bytes passes, one byte more does not. */
  lemma SizeLimitInclusive(name: string, mimeType: string)
    requires mimeType in AllowedTypes
    ensures CheckFile(UploadFile(name, mimeType, 5242880)) == Accepted
    ensures CheckFile(UploadFile(name, mimeType, 5242881)) == TooLarge
  {
  }

  function AlertFor(c: Check): string
    requires c != Accepted
  {
    if c == WrongType then WrongTypeAlert else TooLargeAlert
  }

  class FileUpload {
    var dragActive: bool
    var selectedFile: Option<UploadFile>
    /** The files held by the hidden file input. */
    var inputFiles: seq<UploadFile>
    /** Every file passed to the `onFileSelect` callback, in order. */
    var selections: seq<UploadFile>
    /** Every `alert` shown, in order. */
    var alerts: seq<string>

    /** Only files that pass both checks are ever selected or handed to the parent. */
    predicate Valid()
      reads this
    {
      (selectedFile.Some? ==> CheckFile(selectedFile.value) == Accepted)
      && forall i :: 0 <= i < |selections| ==> CheckFile(selections[i]) == Accepted
    }

    constructor()
      ensures Valid()
      ensures !dragActive && selectedFile.None? && inputFiles == [] && selections == [] && alerts == []
    {
      dragActive := false;
      selectedFile := None;
      inputFiles := [];
      selections := [];
      alerts := [];
    }

    /** `handleDrag`: `dragenter` and `dragover` highlight, `dragleave` clears, any other
        event leaves the highlight as it is. */
    method HandleDrag(eventType: string)
      modifies this`dragActive
      ensures eventType == "dragenter" || eventType == "dragover" ==> dragActive
      ensures eventType == "dragleave" ==> !dragActive
      ensures eventType != "dragenter" && eventType != "dragover" && eventType != "dragleave" ==>
                dragActive == old(dragActive)
    {
      if eventType == "dragenter" || eventType == "dragover" {
        dragActive := true;
      } else if eventType == "dragleave" {
        dragActive := false;
      }
    }

    /** `handleFile`: an accepted file is selected and handed to the parent once; a refused
        one raises its alert and changes nothing else. */
    method HandleFile(file: UploadFile)
      requires Valid()
      modifies this`selectedFile, this`selections, this`alerts
      ensures Valid()
      ensures CheckFile(file) == Accepted ==>
                selectedFile == Some(file) && selections == old(selections) + [file] && alerts == old(alerts)
      ensures CheckFile(file) != Accepted ==>
                selectedFile == old(selectedFile) && selections == old(selections)
                && alerts == old(alerts) + [AlertFor(CheckFile(file))]
    {
      var c := CheckFile(file);
      if c != Accepted {
        alerts := alerts + [AlertFor(c)];
        return;
      }
      selectedFile := Some(file);
      selections := selections + [file];
    }

    /** `handleDrop`: the highlight always goes, and only the first dropped file is checked. */
    method HandleDrop(files: seq<UploadFile>)
      requires Valid()
      modifies this`dragActive, this`selectedFile, this`selections, this`alerts
      ensures Valid() && !dragActive
      ensures files == [] ==>
                selectedFile == old(selectedFile) && selections == old(selections) && alerts == old(alerts)
      ensures files != [] && CheckFile(files[0]) == Accepted ==>
                selectedFile == Some(files[0]) && selections == old(selections) + [files[0]] && alerts == old(alerts)
      ensures files != [] && CheckFile(files[0]) != Accepted ==>
                selectedFile == old(selectedFile) && selections == old(selections)
                && alerts == old(alerts) + [AlertFor(CheckFile(files[0]))]
    {
      dragActive := false;
      if files != [] {
        HandleFile(files[0]);
      }
    }

    /** The file input's `change`: the browser holds the chosen files, and the first is checked. */
    method HandleFileInput(files: seq<UploadFile>)
      requires Valid()
      modifies this`inputFiles, this`selectedFile, this`selections, this`alerts
      ensures Valid() && inputFiles == files
      ensures files == [] ==>
                selectedFile == old(selectedFile) && selections == old(selections) && alerts == old(alerts)
      ensures files != [] && CheckFile(files[0]) == Accepted ==>
                selectedFile == Some(files[0]) && selections == old(selections) + [files[0]] && alerts == old(alerts)
      ensures files != [] && CheckFile(files[0]) != Accepted ==>
                selectedFile == old(selectedFile) && selections == old(selections)
                && alerts == old(alerts) + [AlertFor(CheckFile(files[0]))]
    {
      inputFiles := files;
      if files != [] {
        HandleFile(files[0]);
      }
    }

    /** `removeFile`: clears the selection and the input without telling the parent. */
    method RemoveFile()
      requires Valid()
      modifies this`selectedFile, this`inputFiles
      ensures Valid() && selectedFile.None? && inputFiles == []
    {
      selectedFile := None;
      inputFiles := [];
    }
  }
}
