/** The editor of a rewritten post: its text fields, the category, tag and media lists
    edited item by item, media added by upload or generation, and the saved payload. */
module RewrittenPostEditor {
  import opened Seqs
  import opened JsText
  import Endpoints

  /** A media item. An upload carries a public id and no caption; a generated image
      carries a caption and no public id; an absent member is left out of the JSON. */
  datatype Media = Media(kind: string, url: Option<string>, publicId: Option<string>, caption: Option<string>)

  /** The editor's form, with the two inputs for a new category and a new tag. */
  datatype PostForm = PostForm(
    title: string, excerpt: string, content: string,
    categories: seq<string>, tags: seq<string>, media: seq<Media>,
    newCategory: string, newTag: string)

  const EmptyForm := PostForm("", "", "", [], [], [], "", "")

  /** The stored post as the editor receives it; any member may be missing. */
  datatype StoredPost = StoredPost(
    id: string, title: Option<string>, excerpt: Option<string>, content: Option<string>,
    categories: Option<seq<string>>, tags: Option<seq<string>>, media: Option<seq<Media>>)

  /** The lists `handleAddItem` appends text to. */
  datatype TextList = Categories | Tags

  /** The lists `handleRemoveItem` removes from. */
  datatype ListField = CategoryList | TagList | MediaList

  // ------------------------------------------------------------------
  // Form transforms
  // ------------------------------------------------------------------

  /** The effect on `post`: a present post refills the form, missing text becoming ""
      and missing lists [], with both inputs cleared; no post leaves the form alone. */
  function Loaded(current: PostForm, post: Option<StoredPost>): (form: PostForm)
    ensures post.None? ==> form == current
    ensures post.Some? ==> form.newCategory == "" && form.newTag == ""
    ensures post.Some? ==> form.title == post.value.title.GetOr("") && form.content == post.value.content.GetOr("")
                           && form.excerpt == post.value.excerpt.GetOr("")
    ensures post.Some? ==> form.categories == post.value.categories.GetOr([]) && form.tags == post.value.tags.GetOr([])
                           && form.media == post.value.media.GetOr([])
  {
    match post
    case None => current
    case Some(p) =>
      PostForm(p.title.GetOr(""), p.excerpt.GetOr(""), p.content.GetOr(""),
               p.categories.GetOr([]), p.tags.GetOr([]), p.media.GetOr([]), "", "")
  }

  function TextItems(form: PostForm, field: TextList): seq<string> {
    match field
    case Categories => form.categories
    case Tags => form.tags
  }

  /** `handleAddItem(field, value)`: a blank value changes nothing; otherwise the
      trimmed value goes to the end of the list and the matching input is cleared
      (`newCategory` for categories, `newTag` for tags). */
  function WithItem(form: PostForm, field: TextList, value: string): (r: PostForm)
    ensures Trim(value) == "" ==> r == form
    ensures Trim(value) != "" ==> TextItems(r, field) == TextItems(form, field) + [Trim(value)]
    ensures Trim(value) != "" && field == Categories ==> r == form.(categories := r.categories, newCategory := "")
    ensures Trim(value) != "" && field == Tags ==> r == form.(tags := r.tags, newTag := "")
  {
    var item := Trim(value);
    if item == "" then form
    else match field
      case Categories => form.(categories := form.categories + [item], newCategory := "")
      case Tags => form.(tags := form.tags + [item], newTag := "")
  }

  /** A whitespace-only value is refused, and an accepted item is never blank and
      never has whitespace at either end. */
  lemma WithItemGuard(form: PostForm, field: TextList, value: string)
    ensures IsBlank(value) ==> WithItem(form, field, value) == form
    ensures !IsBlank(value) ==>
      var item := Trim(value);
      TextItems(WithItem(form, field, value), field) == TextItems(form, field) + [item]
      && item != "" && !IsJsWhitespace(item[0]) && !IsJsWhitespace(item[|item| - 1])
  {
    TrimEmptyIff(value);
    TrimHasNoEdgeWhitespace(value);
  }

  /** `handleRemoveItem(field, index)`: `filter((_, i) => i !== index)` on one list;
      the other fields are unchanged. */
  function WithoutItem(form: PostForm, field: ListField, index: int): (r: PostForm)
    ensures field == CategoryList ==> r == form.(categories := RemoveAt(form.categories, index))
    ensures field == TagList ==> r == form.(tags := RemoveAt(form.tags, index))
    ensures field == MediaList ==> r == form.(media := RemoveAt(form.media, index))
  {
    ExceptPositionIsRemoveAt(form.categories, index, 0);
    ExceptPositionIsRemoveAt(form.tags, index, 0);
    ExceptPositionIsRemoveAt(form.media, index, 0);
    match field
    case CategoryList => form.(categories := ExceptPosition(form.categories, index, 0))
    case TagList => form.(tags := ExceptPosition(form.tags, index, 0))
    case MediaList => form.(media := ExceptPosition(form.media, index, 0))
  }

  function ListOf(field: TextList): ListField {
    match field
    case Categories => CategoryList
    case Tags => TagList
  }

  /** Removing the item just added gives back the list as it was; only the cleared
      input remains of the change. */
  lemma RemoveUndoesAdd(form: PostForm, field: TextList, value: string)
    requires !IsBlank(value)
    ensures var added := WithItem(form, field, value);
      TextItems(WithoutItem(added, ListOf(field), |TextItems(form, field)|), field) == TextItems(form, field)
  {
    TrimEmptyIff(value);
    var added := WithItem(form, field, value);
    var items := TextItems(form, field);
    assert (items + [Trim(value)])[..|items|] == items;
  }

  /** Upload reply: `type` is "video" exactly when `resource_type` is "video",
      otherwise "image"; the address and public id are copied. */
  function UploadedMedia(resourceType: Option<string>, secureUrl: Option<string>, publicId: Option<string>): (m: Media)
    ensures m.kind == "video" <==> resourceType == Some("video")
    ensures m.kind == "video" || m.kind == "image"
    ensures m.url == secureUrl && m.publicId == publicId && m.caption.None?
  {
    Media(if resourceType == Some("video") then "video" else "image", secureUrl, publicId, None)
  }

  /** A generated image, captioned "AI Generated". */
  function GeneratedImage(url: string): (m: Media)
    ensures m.kind == "image" && m.url == Some(url) && m.caption == Some("AI Generated") && m.publicId.None?
  {
    Media("image", Some(url), None, Some("AI Generated"))
  }

  /** What a save sends: the six content fields, never the two inputs. */
  datatype Payload = Payload(title: string, excerpt: string, content: string,
                             categories: seq<string>, tags: seq<string>, media: seq<Media>)

  function SavePayload(form: PostForm): (p: Payload)
    ensures p.title == form.title && p.excerpt == form.excerpt && p.content == form.content
    ensures p.categories == form.categories && p.tags == form.tags && p.media == form.media
  {
    Payload(form.title, form.excerpt, form.content, form.categories, form.tags, form.media)
  }

  /** Whatever is typed in the category and tag inputs is not saved. */
  lemma PayloadIgnoresInputs(form: PostForm, newCategory: string, newTag: string)
    ensures SavePayload(form.(newCategory := newCategory, newTag := newTag)) == SavePayload(form)
  {
  }

  /** Adding an item and typing in an input change only what the save sends as that
      list: the text fields and the other lists go out as before. */
  lemma AddingAnItemSavesOnlyThatList(form: PostForm, field: TextList, value: string)
    requires !IsBlank(value)
    ensures var before := SavePayload(form);
      var after := SavePayload(WithItem(form, field, value));
      after.title == before.title && after.excerpt == before.excerpt && after.content == before.content
      && after.media == before.media
      && (field == Categories ==> after.tags == before.tags && after.categories == before.categories + [Trim(value)])
      && (field == Tags ==> after.categories == before.categories && after.tags == before.tags + [Trim(value)])
  {
    TrimEmptyIff(value);
  }

  // ------------------------------------------------------------------
  // The editor's state
  // ------------------------------------------------------------------

  /** How an upload ended: the reply's `resource_type`, `secure_url` and `public_id`,
      or an exception. */
  datatype UploadOutcome = Uploaded(resourceType: Option<string>, secureUrl: Option<string>, publicId: Option<string>)
                         | UploadThrew

  /** How image generation ended: the reply's `url`, or an exception. */
  datatype GenerateOutcome = Generated(url: Option<string>) | GenerateThrew

  class EditRewrittenPost {
    var formData: PostForm
    var loading: bool
    var isGeneratingImg: bool
    var uploading: bool

    constructor()
      ensures formData == EmptyForm && !loading && !isGeneratingImg && !uploading
    {
      formData := EmptyForm;
      loading := false;
      isGeneratingImg := false;
      uploading := false;
    }

    method LoadPost(post: Option<StoredPost>)
      modifies this`formData
      ensures formData == Loaded(old(formData), post)
    {
      if post.Some? {
        formData := Loaded(formData, post);
      }
    }

    /** Typing in the category input. */
    method TypeCategory(text: string)
      modifies this`formData
      ensures formData == old(formData).(newCategory := text)
    {
      formData := formData.(newCategory := text);
    }

    /** Typing in the tag input. */
    method TypeTag(text: string)
      modifies this`formData
      ensures formData == old(formData).(newTag := text)
    {
      formData := formData.(newTag := text);
    }

    method AddItem(field: TextList, value: string)
      modifies this`formData
      ensures formData == WithItem(old(formData), field, value)
    {
      formData := WithItem(formData, field, value);
    }

    method RemoveItem(field: ListField, index: int)
      modifies this`formData
      ensures formData == WithoutItem(old(formData), field, index)
    {
      formData := WithoutItem(formData, field, index);
    }

    /** `handleCloudinaryUpload` up to the request: nothing happens without a file. */
    method BeginUpload(hasFile: bool) returns (started: bool)
      modifies this`uploading
      ensures started == hasFile
      ensures uploading == (hasFile || old(uploading))
    {
      if !hasFile {
        return false;
      }
      uploading := true;
      started := true;
    }

    /** Any reply appends one media item (the reply's status is not checked); a
        failure appends nothing; uploading always ends. */
    method FinishUpload(outcome: UploadOutcome)
      modifies this`formData, this`uploading
      ensures !uploading
      ensures outcome.Uploaded? ==>
        formData == old(formData).(media := old(formData).media
                                    + [UploadedMedia(outcome.resourceType, outcome.secureUrl, outcome.publicId)])
      ensures outcome.UploadThrew? ==> formData == old(formData)
    {
      if outcome.Uploaded? {
        var newMedia := UploadedMedia(outcome.resourceType, outcome.secureUrl, outcome.publicId);
        formData := formData.(media := formData.media + [newMedia]);
      }
      uploading := false;
    }

    /** `handleGenerateAIImage` up to the request; the prompt is the title followed by
        " high quality news photo". */
    method BeginGenerate() returns (prompt: string)
      modifies this`isGeneratingImg
      ensures isGeneratingImg
      ensures prompt == formData.title + " high quality news photo"
    {
      isGeneratingImg := true;
      prompt := formData.title + " high quality news photo";
    }

    /** A reply with a non-empty `url` appends a generated image; anything else
        appends nothing; generating always ends. */
    method FinishGenerate(outcome: GenerateOutcome)
      modifies this`formData, this`isGeneratingImg
      ensures !isGeneratingImg
      ensures outcome.Generated? && outcome.url.Some? && outcome.url.value != "" ==>
        formData == old(formData).(media := old(formData).media + [GeneratedImage(outcome.url.value)])
      ensures !(outcome.Generated? && outcome.url.Some? && outcome.url.value != "") ==> formData == old(formData)
    {
      if outcome.Generated? && outcome.url.Some? && outcome.url.value != "" {
        formData := formData.(media := formData.media + [GeneratedImage(outcome.url.value)]);
      }
      isGeneratingImg := false;
    }

    /** `handleSubmit` up to the request: a PUT of the payload to the post's address. */
    method BeginSave(post: StoredPost) returns (url: string, payload: Payload)
      modifies this`loading
      ensures loading
      ensures url == Endpoints.RewrittenPosts + "/" + post.id
      ensures payload == SavePayload(formData)
    {
      loading := true;
      url := Endpoints.RewrittenPosts + "/" + post.id;
      payload := SavePayload(formData);
    }

    /** After the request: `closed` says whether `onUpdate` and `onClose` ran, which is
        exactly when the reply was ok; loading always ends. */
    method FinishSave(ok: bool) returns (closed: bool)
      modifies this`loading
      ensures !loading && closed == ok
    {
      closed := ok;
      loading := false;
    }
  }
}
