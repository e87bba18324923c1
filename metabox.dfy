/** The post-edit "metabox" of the search plugin: an editor ticks a checkbox
    to exclude one post from indexing. The flag lives in the post meta of the
    post, under the key `DoNotIndexField`. */
module WpsolrMetabox {
  import opened Php

  /** Meta key that holds the "do not index" checkbox. */
  const DoNotIndexField := "_wpsolr-meta-is-do-not-index"
  /** Request field that carries the metabox nonce. */
  const NonceId := "wpsolr-metabox-nonce-id"
  /** Action the nonce is issued for: the base name of the metabox source file. */
  const NonceAction := "wpsolr-metabox.php"
  /** Value the checkbox submits when it is ticked. */
  const CheckboxYes := "yes"

  /** The part of a WordPress post the metabox looks at. */
  datatype Post = Post(id: int, postType: string, mimeType: string)

  /** WordPress post meta: for each (post id, meta key), the stored values in
      row order. */
  type PostMeta = map<(int, string), seq<string>>

  /** The post meta table, which the save callback updates. */
  class PostMetaStore {
    var meta: PostMeta

    constructor (initial: PostMeta)
      ensures meta == initial
    {
      meta := initial;
    }
  }

  /** The metabox object. It keeps no state of its own: its callbacks work on
      the post meta table and on the request. */
  class Metabox {

    /** The `save_post` callback. It writes the checkbox only when the post
        is not an autosave, not a revision, and the request carries a valid
        nonce; otherwise it returns without touching the post meta. */
    method SavePostCallback(store: PostMetaStore, postId: int, isAutosave: bool, isRevision: bool,
                            request: map<string, string>,
                            verifyNonce: (string, string) -> bool,
                            sanitize: string -> string)
      modifies store
      ensures !SaveAllowed(isAutosave, isRevision, request, verifyNonce) ==> store.meta == old(store.meta)
      ensures SaveAllowed(isAutosave, isRevision, request, verifyNonce) ==>
        store.meta == UpdatePostMeta(old(store.meta), postId, DoNotIndexField, SubmittedValue(request, sanitize))
    {
      var isValidNonce := NonceId in request && verifyNonce(request[NonceId], NonceAction);
      if isAutosave || isRevision || !isValidNonce {
        return;
      }
      store.meta := UpdatePostMeta(store.meta, postId, DoNotIndexField, SubmittedValue(request, sanitize));
    }
  }

  /** Holder of the single registered metabox (a static variable in the
      plugin). */
  class Registry {
    var metabox: Metabox?

    constructor ()
      ensures metabox == null
    {
      metabox := null;
    }

    /** Creates the metabox on the first call only: a later call keeps the
        instance already registered. */
    method Register()
      modifies this
      ensures metabox != null
      ensures old(metabox) != null ==> metabox == old(metabox)
      ensures old(metabox) == null ==> fresh(metabox)
    {
      if metabox == null {
        metabox := new Metabox;
      }
    }
  }

  /** A configured type list: not an array (None) counts as no types. */
  function ListedTypes(option: Option<seq<string>>): seq<string> {
    match option
    case Some(types) => types
    case None => []
  }

  /** The indexable post types followed by the indexable attachment (MIME)
      types, each list emptied when the option is not an array. */
  function IndexableTypes(postTypes: Option<seq<string>>, attachmentTypes: Option<seq<string>>): (types: seq<string>)
    ensures |types| == |ListedTypes(postTypes)| + |ListedTypes(attachmentTypes)|
    ensures forall i :: 0 <= i < |ListedTypes(postTypes)| ==> types[i] == ListedTypes(postTypes)[i]
    ensures forall i :: 0 <= i < |ListedTypes(attachmentTypes)| ==>
      types[|ListedTypes(postTypes)| + i] == ListedTypes(attachmentTypes)[i]
    ensures forall t :: t in types <==> t in ListedTypes(postTypes) || t in ListedTypes(attachmentTypes)
  {
    ListedTypes(postTypes) + ListedTypes(attachmentTypes)
  }

  /** The key a post is checked under: its MIME type for an attachment, its
      post type otherwise. */
  function CheckedType(post: Post): string {
    if post.postType == "attachment" then post.mimeType else post.postType
  }

  /** Whether the metabox is shown for a post: its checked key is one of the
      indexable types, compared strictly. */
  function IsShowMetaBox(post: Post, postTypes: Option<seq<string>>, attachmentTypes: Option<seq<string>>): (show: bool)
    ensures post.postType == "attachment" ==>
      (show <==> post.mimeType in ListedTypes(postTypes) || post.mimeType in ListedTypes(attachmentTypes))
    ensures post.postType != "attachment" ==>
      (show <==> post.postType in ListedTypes(postTypes) || post.postType in ListedTypes(attachmentTypes))
    ensures postTypes.None? && attachmentTypes.None? ==> !show
  {
    CheckedType(post) in IndexableTypes(postTypes, attachmentTypes)
  }

  /** The save guard: not an autosave, not a revision, and a nonce that is
      present and verifies for the metabox action. */
  predicate SaveAllowed(isAutosave: bool, isRevision: bool, request: map<string, string>,
                        verifyNonce: (string, string) -> bool)
  {
    !isAutosave && !isRevision && NonceId in request && verifyNonce(request[NonceId], NonceAction)
  }

  /** The value the save callback stores: the sanitized submitted checkbox,
      or "" when the checkbox was not submitted. */
  function SubmittedValue(request: map<string, string>, sanitize: string -> string): string {
    if DoNotIndexField in request then sanitize(request[DoNotIndexField]) else ""
  }

  /** WordPress `update_post_meta`: every stored value of the key becomes
      `value`; a key with no stored value gets one row. */
  function UpdatePostMeta(meta: PostMeta, postId: int, key: string, value: string): (r: PostMeta)
    ensures r.Keys == meta.Keys + {(postId, key)}
    ensures |r[(postId, key)]| > 0
    ensures forall i :: 0 <= i < |r[(postId, key)]| ==> r[(postId, key)][i] == value
    ensures (postId, key) in meta && |meta[(postId, key)]| > 0 ==> |r[(postId, key)]| == |meta[(postId, key)]|
    ensures forall e :: e in meta && e != (postId, key) ==> r[e] == meta[e]
  {
    var rows := if (postId, key) in meta && |meta[(postId, key)]| > 0 then |meta[(postId, key)]| else 1;
    meta[(postId, key) := seq(rows, _ => value)]
  }

  /** WordPress `get_post_custom_values`: the stored values of a key, or
      None when the post has none. */
  function CustomValues(meta: PostMeta, key: string, postId: int): Option<seq<string>> {
    if (postId, key) in meta then Some(meta[(postId, key)]) else None
  }

  /** A metabox checkbox is on when the post has values for the field and
      the first one is not PHP-empty. Any stored string other than "" and
      "0" is on, not only "yes". */
  function CheckboxValue(meta: PostMeta, fieldName: string, postId: int): (on: bool)
    ensures on <==> (postId, fieldName) in meta && |meta[(postId, fieldName)]| > 0
                    && meta[(postId, fieldName)][0] != "" && meta[(postId, fieldName)][0] != "0"
  {
    match CustomValues(meta, fieldName, postId)
    case None => false
    case Some(values) => !Empty(if |values| > 0 then Str(values[0]) else Null)
  }

  /** Whether a post is excluded from indexing: the "do not index" checkbox
      of that post is on. */
  function IsDoNotIndex(meta: PostMeta, postId: int): (excluded: bool)
    ensures excluded <==> (postId, DoNotIndexField) in meta && |meta[(postId, DoNotIndexField)]| > 0
                          && !EmptyString(meta[(postId, DoNotIndexField)][0])
  {
    CheckboxValue(meta, DoNotIndexField, postId)
  }

  /** After a save that passed the guard, the saved post is excluded
      exactly when the stored value is not PHP-empty. */
  lemma SaveDecidesExclusion(meta: PostMeta, postId: int, value: string)
    ensures IsDoNotIndex(UpdatePostMeta(meta, postId, DoNotIndexField, value), postId) <==> !EmptyString(value)
  {
  }

  /** A save for one post leaves the exclusion of every other post as it was. */
  lemma SaveKeepsOtherPosts(meta: PostMeta, postId: int, value: string, other: int)
    requires other != postId
    ensures IsDoNotIndex(UpdatePostMeta(meta, postId, DoNotIndexField, value), other) == IsDoNotIndex(meta, other)
  {
  }

  /** The ticked checkbox submits "yes", which sanitizing keeps and which
      excludes the post once saved; an unticked one submits nothing, so ""
      is stored and the post is indexed. */
  lemma CheckboxRoundTrip(meta: PostMeta, postId: int, request: map<string, string>, sanitize: string -> string)
    requires DoNotIndexField in request ==> request[DoNotIndexField] == CheckboxYes
    requires sanitize(CheckboxYes) == CheckboxYes
    ensures IsDoNotIndex(UpdatePostMeta(meta, postId, DoNotIndexField, SubmittedValue(request, sanitize)), postId)
            <==> DoNotIndexField in request
  {
  }
}
