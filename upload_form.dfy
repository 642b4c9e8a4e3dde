/**
 * The state of the two upload pages (`Upload.tsx`, `UploadHoldings.tsx`):
 * the selected file, its preview, the column mapping and the current step.
 * Both pages run the same `handleFileChange` and `handlePreviewNext`; only
 * the name of the first step differs ('form' and 'upload').
 */
module UploadForm {
  import opened Text
  import opened CsvPreview

  /** The page's step: `Entry` is 'form' in Upload.tsx and 'upload' in UploadHoldings.tsx. */
  datatype Step = Entry | PreviewStep

  /** The browser's `File`: its name and MIME type. */
  datatype SelectedFile = SelectedFile(name: string, mimeType: string)

  /** A file was picked and passes the file-type rule. */
  predicate Accepted(selected: Option<SelectedFile>) {
    selected.Some? && AcceptsFile(selected.value.mimeType, selected.value.name)
  }

  class Form {
    var file: Option<SelectedFile>
    var preview: Option<Preview>
    var mapping: ColumnMapping
    var step: Step

    /** A preview belongs to a selected file, and its mapping points at its headers. */
    ghost predicate Valid()
      reads this
    {
      preview.Some? ==> file.Some? && InRange(mapping, |preview.value.headers|)
    }

    constructor ()
      ensures Valid()
      ensures file == None && preview == None && step == Entry
      ensures mapping == ColumnMapping(None, None)
    {
      file := None;
      preview := None;
      mapping := ColumnMapping(None, None);
      step := Entry;
    }

    /**
     * `handleFileChange`.  `text` is what `selectedFile.text()` yields.  The
     * name given to the preview is the one of the file held before the call:
     * the handler reads the `file` state captured when it was created.
     */
    method HandleFileChange(selected: Option<SelectedFile>, text: string)
      requires Valid()
      modifies this
      ensures Valid() && step == old(step)
      ensures !Accepted(selected) ==>
        file == old(file) && preview == old(preview) && mapping == old(mapping)
      ensures Accepted(selected) && !IsCsvName(selected.value.name) ==>
        file == selected && preview == None && mapping == ColumnMapping(None, None)
      ensures Accepted(selected) && IsCsvName(selected.value.name) ==>
        var parsed := ParseCsvContent(text, if old(file).Some? then Some(old(file).value.name) else None);
        if parsed.Ok? then
          file == selected && preview == Some(parsed.value) && mapping == DetectColumns(parsed.value.headers)
        else
          file == None && preview == None && mapping == old(mapping)
    {
      if selected.None? {
        return;
      }
      var f := selected.value;
      if !AcceptsFile(f.mimeType, f.name) {
        return;
      }
      var previous := if file.Some? then Some(file.value.name) else None;
      file := selected;
      if IsCsvName(f.name) {
        var parsed := ParseCsvContent(text, previous);
        if parsed.Ok? {
          preview := Some(parsed.value);
          DetectedColumnsAreFirstMatches(parsed.value.headers);
          mapping := DetectColumns(parsed.value.headers);
        } else {
          file := None;
          preview := None;
        }
      } else {
        preview := None;
        mapping := ColumnMapping(None, None);
      }
    }

    /** The name-column select: its options are the preview's header indices. */
    method SelectNameColumn(k: nat)
      requires Valid() && preview.Some? && k < |preview.value.headers|
      modifies this`mapping
      ensures Valid()
      ensures mapping == old(mapping).(nameColumn := Some(k))
    {
      mapping := mapping.(nameColumn := Some(k));
    }

    /** The ticker-column select. */
    method SelectTickerColumn(k: nat)
      requires Valid() && preview.Some? && k < |preview.value.headers|
      modifies this`mapping
      ensures Valid()
      ensures mapping == old(mapping).(tickerColumn := Some(k))
    {
      mapping := mapping.(tickerColumn := Some(k));
    }

    /** Whether `handlePreviewNext` lets the page move on. */
    predicate CanAdvance()
      reads this
    {
      file.Some? && !(preview.Some? && (mapping.nameColumn.None? || mapping.tickerColumn.None?))
    }

    /**
     * `handlePreviewNext`: nothing without a file; with a preview, both
     * columns must be chosen; otherwise the page moves to the preview step.
     */
    method HandlePreviewNext()
      requires Valid()
      modifies this`step
      ensures Valid()
      ensures step == if CanAdvance() then PreviewStep else old(step)
      ensures step == PreviewStep && old(step) == Entry ==>
        file.Some? && (preview.Some? ==> mapping.nameColumn.Some? && mapping.tickerColumn.Some?)
    {
      if file.None? {
        return;
      }
      if preview.Some? && (mapping.nameColumn.None? || mapping.tickerColumn.None?) {
        return;
      }
      step := PreviewStep;
    }

    /** The back button of the preview step. */
    method Back()
      requires Valid()
      modifies this`step
      ensures Valid() && step == Entry
    {
      step := Entry;
    }
  }
}
