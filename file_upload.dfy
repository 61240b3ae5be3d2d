/** The CSV upload box (src/components/FileUploads.jsx): it accepts a file only when the text
    after the last dot of its name, lower-cased, is `csv`, and reports every accept, reject and
    removal to its parent through the `onFileUpload` callback. */
module FileUpload {
  import opened Wrappers
  import JsText

  /** The part of a browser `File` the component reads: its name; `size` stands for the rest. */
  datatype UploadedFile = UploadedFile(name: string, size: nat)

  /** `name.split('.').pop().toLowerCase()`. */
  function Extension(name: string): (e: string)
    ensures '.' !in e && |e| <= |name|
  {
    JsText.ToLower(JsText.AfterLast(name, '.'))
  }

  predicate IsCsv(name: string) {
    Extension(name) == "csv"
  }

  const CsvError := "Please upload a CSV file."

  /** The extension of `base.ext`, for a dot-free `ext`, is `ext` lower-cased, whatever `base` is. */
  lemma {:induction false} ExtensionAfterLastDot(base: string, ext: string)
    requires '.' !in ext
    ensures Extension(base + "." + ext) == JsText.ToLower(ext)
  {
    assert base + "." + ext == base + ['.'] + ext;
    JsText.AfterLastOfJoin(base, '.', ext);
  }

  /** A name without a dot is its own extension, lower-cased. */
  lemma {:induction false} ExtensionWithoutDot(name: string)
    requires '.' !in name
    ensures Extension(name) == JsText.ToLower(name)
  {
  }

  /** `base.ext` is accepted exactly when `ext` is `csv` in any letter case. */
  lemma {:induction false} AcceptedIff(base: string, ext: string)
    requires '.' !in ext
    ensures IsCsv(base + "." + ext) <==> JsText.ToLower(ext) == "csv"
  {
    ExtensionAfterLastDot(base, ext);
  }

  /** An upper-case extension is accepted. */
  lemma UpperCaseAccepted()
    ensures IsCsv("X.CSV")
  {
    ExtensionAfterLastDot("X", "CSV");
    assert JsText.ToLower("CSV") == "csv";
  }

  /** A bare `csv`, with no dot at all, is accepted. */
  lemma BareCsvAccepted()
    ensures IsCsv("csv")
  {
    ExtensionWithoutDot("csv");
    assert JsText.ToLower("csv") == "csv";
  }

  /** Only the last extension counts. */
  lemma InnerCsvRejected()
    ensures !IsCsv("a.csv.txt")
  {
    ExtensionAfterLastDot("a.csv", "txt");
    assert JsText.ToLower("txt")[0] == 't';
  }

  /** A trailing dot leaves an empty extension. */
  lemma TrailingDotRejected()
    ensures !IsCsv("data.csv.")
  {
    ExtensionAfterLastDot("data.csv", "");
  }

  class FileUploadBox {
    /** The `file` state. */
    var file: Option<UploadedFile>
    /** The `error` state; shown when non-empty. */
    var error: string
    /** Whether `fileInputRef.current` is set, i.e. the `<input>` is mounted. */
    var mounted: bool
    /** The `<input>` element's `value`. */
    var inputValue: string
    /** Every value passed to `onFileUpload`, oldest first. */
    var notified: seq<Option<UploadedFile>>

    /** A kept file is a CSV file and clears the error; the only error is the CSV message; the
        parent's last notification is the kept file. */
    ghost predicate Valid()
      reads this
    {
      (file.Some? ==> IsCsv(file.value.name) && error == "") &&
      (error == "" || error == CsvError) &&
      (if notified == [] then file == None else notified[|notified| - 1] == file)
    }

    constructor (mounted: bool)
      ensures Valid()
      ensures file == None && error == "" && this.mounted == mounted && inputValue == "" && notified == []
    {
      this.file := None;
      this.error := "";
      this.mounted := mounted;
      this.inputValue := "";
      this.notified := [];
    }

    /** `handleFileUpload` for a change event whose file list starts with `uploaded` (`None` when
        the list is empty: reading `.name` then throws and nothing changes). `selection` is the
        value the browser has put into the `<input>`. */
    method HandleFileUpload(uploaded: Option<UploadedFile>, selection: string)
      requires Valid()
      modifies this
      ensures Valid()
      ensures mounted == old(mounted)
      ensures uploaded.None? ==>
        file == old(file) && error == old(error) && inputValue == old(inputValue) && notified == old(notified)
      ensures uploaded.Some? && !IsCsv(uploaded.value.name) ==>
        error == CsvError && file == None && notified == old(notified) + [None] &&
        inputValue == (if mounted then "" else selection)
      ensures uploaded.Some? && IsCsv(uploaded.value.name) ==>
        error == "" && file == uploaded && notified == old(notified) + [uploaded] && inputValue == selection
    {
      if uploaded.None? {
        return;
      }
      inputValue := selection;
      var f := uploaded.value;
      if !IsCsv(f.name) {
        error := CsvError;
        file := None;
        notified := notified + [None];
        if mounted {
          inputValue := "";
        }
      } else {
        error := "";
        file := Some(f);
        notified := notified + [Some(f)];
      }
    }

    /** `handleRemoveFile`: drop the file, tell the parent, clear the input; the error stays. */
    method HandleRemoveFile()
      requires Valid()
      modifies this`file, this`notified, this`inputValue
      ensures Valid()
      ensures file == None && notified == old(notified) + [None] && error == old(error)
      ensures inputValue == if mounted then "" else old(inputValue)
    {
      file := None;
      notified := notified + [None];
      if mounted {
        inputValue := "";
      }
    }
  }
}
