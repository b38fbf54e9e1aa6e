/** The media attached to a message and the file name shown to the operator. */
module Attachments {
  import opened Outcomes

  /** A document attribute: the declared file name, or any other kind. */
  datatype Attribute = FileNameAttr(fileName: string) | OtherAttr

  /** The closed set of attachment shapes the pipeline tells apart. */
  datatype Media = Document(attributes: seq<Attribute>) | Photo | OtherMedia

  /** `k` is the position of the first file-name attribute. */
  ghost predicate FirstFileNameAt(attrs: seq<Attribute>, k: int) {
    0 <= k < |attrs| && attrs[k].FileNameAttr?
    && forall j :: 0 <= j < k ==> !attrs[j].FileNameAttr?
  }

  /** The name in the first file-name attribute, if there is one (the search
      loop over `media.document.attributes`). */
  function FirstFileName(attrs: seq<Attribute>): (r: Option<string>)
    ensures r.None? <==> forall j :: 0 <= j < |attrs| ==> !attrs[j].FileNameAttr?
    ensures r.Some? ==> exists k :: FirstFileNameAt(attrs, k) && attrs[k].fileName == r.value
    decreases |attrs|
  {
    if |attrs| == 0 then None
    else if attrs[0].FileNameAttr? then
      assert FirstFileNameAt(attrs, 0);
      Some(attrs[0].fileName)
    else
      var r := FirstFileName(attrs[1..]);
      FirstFileNameLater(attrs);
      r
  }

  lemma FirstFileNameLater(attrs: seq<Attribute>)
    requires |attrs| > 0 && !attrs[0].FileNameAttr?
    ensures forall k :: FirstFileNameAt(attrs[1..], k) ==> FirstFileNameAt(attrs, k + 1)
    ensures forall j :: 1 <= j < |attrs| ==> attrs[j] == attrs[1..][j - 1]
  {
  }

  /** `get_filename`: the declared name of a document, `photo_<stamp>.jpg`
      for a photo, and `file_<stamp>` for anything else, including a document
      without a file-name attribute. `stamp` is the rendered timestamp. */
  function GetFilename(media: Media, stamp: string): (name: string)
    ensures media.Photo? ==> name == "photo_" + stamp + ".jpg"
    ensures media.OtherMedia? ==> name == "file_" + stamp
    ensures media.Document? ==>
      || (exists k :: FirstFileNameAt(media.attributes, k) && name == media.attributes[k].fileName)
      || ((forall j :: 0 <= j < |media.attributes| ==> !media.attributes[j].FileNameAttr?)
          && name == "file_" + stamp)
  {
    match media
    case Document(attrs) =>
      var found := FirstFileName(attrs);
      if found.Some? then found.value else "file_" + stamp
    case Photo => "photo_" + stamp + ".jpg"
    case OtherMedia => "file_" + stamp
  }
}
