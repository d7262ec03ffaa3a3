/** The photo picker of the journey editor.  It keeps the files chosen in
    this session and one preview URL per file; photos already stored with
    the journey are only shown and can be removed.  `F` is the browser's
    file type and `objectUrl` stands for `URL.createObjectURL`. */
module PhotosForm {
  import opened Wrappers
  import opened Seqs

  /** `existingPhotos.filter((_, i) => i !== index)`, with a missing list
      read as empty: the photo at `index` goes, the others keep their
      order, and an index out of range removes nothing. */
  function HandleRemoveExistingPhoto(existingPhotos: Option<seq<string>>, index: int): (updated: seq<string>)
    ensures var photos := existingPhotos.GetOr([]);
      && (0 <= index < |photos| ==> updated == photos[..index] + photos[index + 1..])
      && (!(0 <= index < |photos|) ==> updated == photos)
  {
    var photos := existingPhotos.GetOr([]);
    assert 0 <= index < |photos| ==> RemoveAt(photos, index) == photos[..index] + photos[index + 1..];
    RemoveAt(photos, index)
  }

  /** Removing the same existing photo index twice removes two photos. */
  lemma RemoveExistingTwice(photos: seq<string>, index: int)
    requires 0 <= index && index + 1 < |photos|
    ensures HandleRemoveExistingPhoto(Some(HandleRemoveExistingPhoto(Some(photos), index)), index)
      == photos[..index] + photos[index + 2..]
  {
    var once := HandleRemoveExistingPhoto(Some(photos), index);
    assert once == photos[..index] + photos[index + 1..];
    assert once[..index] == photos[..index];
    assert once[index + 1..] == photos[index + 2..];
  }

  class PhotoSelection<F> {
    var selectedFiles: seq<F>
    var previewUrls: seq<string>
    const objectUrl: F -> string

    /** The preview list runs alongside the file list: one URL per file,
        the one made for that file. */
    predicate Valid()
      reads this
    {
      |previewUrls| == |selectedFiles|
      && forall i :: 0 <= i < |selectedFiles| ==> previewUrls[i] == objectUrl(selectedFiles[i])
    }

    /** Nothing selected yet. */
    constructor (objectUrl: F -> string)
      ensures this.objectUrl == objectUrl
      ensures selectedFiles == [] && previewUrls == []
      ensures Valid()
    {
      this.objectUrl := objectUrl;
      selectedFiles := [];
      previewUrls := [];
    }

    /** `handleFileChange`: a non-empty choice is appended to the selection,
        with a preview URL for each new file, and the whole selection is
        emitted; no files, or an empty choice, changes nothing. */
    method HandleFileChange(files: Option<seq<F>>) returns (emitted: Option<seq<F>>)
      requires Valid()
      modifies this
      ensures Valid()
      ensures files.None? || files.value == [] ==>
        emitted.None? && selectedFiles == old(selectedFiles) && previewUrls == old(previewUrls)
      ensures files.Some? && files.value != [] ==>
        selectedFiles == old(selectedFiles) + files.value && emitted == Some(selectedFiles)
      ensures previewUrls[..|old(previewUrls)|] == old(previewUrls)
    {
      if files.Some? && |files.value| > 0 {
        var newFiles := files.value;
        var updatedFiles := selectedFiles + newFiles;
        selectedFiles := updatedFiles;
        var newPreviewUrls := seq(|newFiles|, i requires 0 <= i < |newFiles| => objectUrl(newFiles[i]));
        previewUrls := previewUrls + newPreviewUrls;
        emitted := Some(updatedFiles);
      } else {
        emitted := None;
      }
    }

    /** `handleRemoveSelectedFile`: the file at `index` and its preview go
        together, so files and previews stay paired; the new selection is
        emitted. */
    method HandleRemoveSelectedFile(index: int) returns (emitted: seq<F>)
      requires Valid()
      modifies this
      ensures Valid()
      ensures selectedFiles == RemoveAt(old(selectedFiles), index)
      ensures previewUrls == RemoveAt(old(previewUrls), index)
      ensures emitted == selectedFiles
      ensures 0 <= index < |old(selectedFiles)| ==> |selectedFiles| == |old(selectedFiles)| - 1
    {
      var updatedFiles := RemoveAt(selectedFiles, index);
      selectedFiles := updatedFiles;
      previewUrls := RemoveAt(previewUrls, index);
      emitted := updatedFiles;
    }
  }
}
