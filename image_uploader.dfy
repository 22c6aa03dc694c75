/** The admin image library (src/components/admin/ImageUploader.tsx): the storage name given
    to an uploaded file, the batch upload that appends only when every file was stored, the
    name derived from a pasted URL, the delete that filters the list once the storage
    removal succeeded, and which entries offer a delete button. Storage calls are reduced to
    their success flags, `Math.random().toString(36).substring(2)` and `Date.now()` to
    parameters, and `getPublicUrl` to a function parameter. */
module ImageUploader {
  import opened Seqs
  import opened Text

  datatype UploadedImage = UploadedImage(name: string, url: string)

  /** `name.split('.').pop()`. */
  function FileExt(name: string): string
  {
    LastSegment(name, '.')
  }

  /** The extension is the text after the last '.', or the whole name when it has none. */
  lemma FileExtIsTextAfterLastDot(name: string)
    ensures '.' !in FileExt(name)
    ensures '.' !in name ==> FileExt(name) == name
    ensures |FileExt(name)| <= |name| && FileExt(name) == name[|name| - |FileExt(name)|..]
    ensures |FileExt(name)| < |name| ==> name[|name| - |FileExt(name)| - 1] == '.'
  {
    var e := FileExt(name);
    assert e == LastSegment(name, '.');
    LastSegmentIsTextAfterLastSeparator(name, '.');
    if '.' !in name {
      LastSegmentNoSeparator(name, '.');
    }
  }

  /** `${random}-${now}.${ext}`: the storage name of a file. It begins with the random part
      and a dash. */
  function StoredName(random: string, now: nat, fileName: string): (r: string)
    ensures |r| > |random| && r[..|random| + 1] == random + "-"
  {
    var tail := NatToString(now) + "." + FileExt(fileName);
    assert (random + "-" + tail)[..|random| + 1] == random + "-";
    random + "-" + tail
  }

  /** The storage name keeps the original file's extension: splitting it on '.' again gives
      back the extension the name was built from. */
  lemma StoredNameKeepsExtension(random: string, now: nat, fileName: string)
    ensures FileExt(StoredName(random, now, fileName)) == FileExt(fileName)
  {
    var ext := FileExt(fileName);
    var head := random + "-" + NatToString(now);
    FileExtIsTextAfterLastDot(fileName);
    LastSegmentAfterSeparator(head, '.', ext);
    assert StoredName(random, now, fileName) == head + ['.'] + ext;
  }

  /** The entry an uploaded file adds. */
  function UploadEntry(random: string, now: nat, fileName: string, publicUrl: string -> string): (e: UploadedImage)
    ensures e.name == StoredName(random, now, fileName) && e.url == publicUrl(e.name)
  {
    var name := StoredName(random, now, fileName);
    UploadedImage(name, publicUrl(name))
  }

  /** The entries a fully successful batch appends: one per file, in file order. */
  function BatchEntries(files: seq<string>, randoms: seq<string>, times: seq<nat>, publicUrl: string -> string)
    : (r: seq<UploadedImage>)
    requires |randoms| == |files| && |times| == |files|
    ensures |r| == |files|
  {
    seq(|files|, i requires 0 <= i < |files| => UploadEntry(randoms[i], times[i], files[i], publicUrl))
  }

  /** Entry `i` of a batch is stored under a name that begins with the `i`th random part and
      carries the `i`th file's extension, and its URL is the public URL of that name. */
  lemma BatchEntriesFollowFiles(files: seq<string>, randoms: seq<string>, times: seq<nat>, publicUrl: string -> string)
    requires |randoms| == |files| && |times| == |files|
    ensures forall i :: 0 <= i < |files| ==> (
      var e := BatchEntries(files, randoms, times, publicUrl)[i];
      FileExt(e.name) == FileExt(files[i]) && StartsWith(e.name, randoms[i] + "-") && e.url == publicUrl(e.name))
  {
    forall i | 0 <= i < |files|
      ensures FileExt(StoredName(randoms[i], times[i], files[i])) == FileExt(files[i])
    {
      StoredNameKeepsExtension(randoms[i], times[i], files[i]);
    }
  }

  /** The name an entry added by URL gets: `url.split('/').pop() || 'external-image'`. It is
      never empty; a URL ending with '/' gets "external-image", any other the text after its
      last '/'. */
  function UrlName(url: string): (name: string)
    requires url != []
    ensures name != [] && '/' !in name
    ensures url[|url| - 1] == '/' ==> name == "external-image"
    ensures url[|url| - 1] != '/' ==> (|name| <= |url| && name == url[|url| - |name|..]
      && (|name| < |url| ==> url[|url| - |name| - 1] == '/'))
  {
    var last := LastSegment(url, '/');
    LastSegmentIsTextAfterLastSeparator(url, '/');
    if last != [] then last else "external-image"
  }

  /** `!image.url.startsWith('http')`: whether the entry shows a delete button. */
  predicate DeleteOffered(url: string)
  {
    !StartsWith(url, "http")
  }

  /** The filter `deleteImage` applies. */
  function NamedOtherThan(fileName: string): UploadedImage -> bool
  {
    (img: UploadedImage) => img.name != fileName
  }

  class ImageLibrary {
    var uploading: bool
    var uploadedImages: seq<UploadedImage>
    /** The URL text field. */
    var urlInput: string
    /** Every value written to `uploading`, in order. */
    ghost var uploadingLog: seq<bool>

    constructor ()
      ensures !uploading && uploadedImages == [] && urlInput == "" && uploadingLog == []
    {
      uploading := false;
      uploadedImages := [];
      urlInput := "";
      uploadingLog := [];
    }

    /** `handleFileUpload(files)`: each file in turn is named and uploaded (`uploadOk[i]` is
        the storage answer); the first failure abandons the batch and nothing is appended.
        `uploading` is raised for the batch and lowered in the `finally`. */
    method HandleFileUpload(files: seq<string>, randoms: seq<string>, times: seq<nat>,
                            uploadOk: seq<bool>, publicUrl: string -> string) returns (ok: bool)
      requires |randoms| == |files| && |times| == |files| && |uploadOk| == |files|
      modifies this`uploading, this`uploadedImages, this`uploadingLog
      ensures ok <==> forall i :: 0 <= i < |files| ==> uploadOk[i]
      ensures ok ==> uploadedImages == old(uploadedImages) + BatchEntries(files, randoms, times, publicUrl)
      ensures !ok ==> uploadedImages == old(uploadedImages)
      ensures !uploading && uploadingLog == old(uploadingLog) + [true, false]
    {
      uploading := true;
      uploadingLog := uploadingLog + [true];
      var newImages: seq<UploadedImage> := [];
      var i := 0;
      ok := true;
      while i < |files|
        invariant 0 <= i <= |files|
        invariant ok && forall k :: 0 <= k < i ==> uploadOk[k]
        invariant newImages == BatchEntries(files, randoms, times, publicUrl)[..i]
      {
        var entry := UploadEntry(randoms[i], times[i], files[i], publicUrl);
        if !uploadOk[i] {
          ok := false;
          break;
        }
        newImages := newImages + [entry];
        i := i + 1;
      }
      if ok {
        assert BatchEntries(files, randoms, times, publicUrl)[..i] == BatchEntries(files, randoms, times, publicUrl);
        uploadedImages := uploadedImages + newImages;
      }
      uploading := false;
      uploadingLog := uploadingLog + [false];
    }

    /** `deleteImage(fileName)`: after a successful removal (`removeOk`) every entry with
        that name goes and the others stay in order; after a failure nothing changes. */
    method DeleteImage(fileName: string, removeOk: bool)
      modifies this`uploadedImages
      ensures removeOk ==> uploadedImages == Filter(old(uploadedImages), NamedOtherThan(fileName))
      ensures removeOk ==> forall img :: img in uploadedImages <==> img in old(uploadedImages) && img.name != fileName
      ensures !removeOk ==> uploadedImages == old(uploadedImages)
    {
      if removeOk {
        uploadedImages := Filter(uploadedImages, NamedOtherThan(fileName));
      }
    }

    /** The "Adaugă" button and the Enter key: a field that trims to nothing changes nothing;
        otherwise one entry with the trimmed URL is appended and the field is cleared. */
    method AddByUrl()
      modifies this`uploadedImages, this`urlInput
      ensures Trim(old(urlInput)) == [] ==> uploadedImages == old(uploadedImages) && urlInput == old(urlInput)
      ensures Trim(old(urlInput)) != [] ==> (urlInput == ""
        && uploadedImages == old(uploadedImages) + [UploadedImage(UrlName(Trim(old(urlInput))), Trim(old(urlInput)))])
    {
      var url := Trim(urlInput);
      if url != [] {
        uploadedImages := uploadedImages + [UploadedImage(UrlName(url), url)];
        urlInput := "";
      }
    }
  }

  /** When the storage hands out public URLs beginning with "http", no uploaded file ever
      offers a delete button, so `deleteImage` is only reachable for URL entries that do not
      begin with "http". */
  lemma UploadsOfferNoDelete(files: seq<string>, randoms: seq<string>, times: seq<nat>, publicUrl: string -> string)
    requires |randoms| == |files| && |times| == |files|
    requires forall name :: StartsWith(publicUrl(name), "http")
    ensures forall i :: 0 <= i < |files| ==> !DeleteOffered(BatchEntries(files, randoms, times, publicUrl)[i].url)
  {
  }

  /** A pasted URL with a path keeps its file name; a bare file name is its own name. */
  lemma UrlNameExamples()
    ensures UrlName("https://example.com/imagine.jpg") == "imagine.jpg"
    ensures UrlName("https://example.com/") == "external-image"
  {
    LastSegmentAfterSeparator("https://example.com", '/', "imagine.jpg");
    assert "https://example.com/imagine.jpg" == "https://example.com" + ['/'] + "imagine.jpg";
  }
}
