/** The bridge between the search plugin and Advanced Custom Fields (ACF).
    ACF stores, next to each custom field `name` of a post, a meta row
    `_name` whose value is the ACF field key. The bridge maps custom field
    names to ACF labels and values, and turns ACF "file" fields into
    attachments to index. */
module Acf {
  import opened Php

  /** Prefix of the meta key that holds an ACF field key. */
  const FieldPrefix := "_"
  /** Extension option: show ACF labels instead of field names on facets. */
  const DisplayLabelOption := "display_acf_label_on_facet"

  /** One row of the meta query: a meta key and its ACF field key. */
  datatype MetaRow = MetaRow(metaKey: string, metaValue: string)

  /** An attachment to index: a media post, or a file at a URL. */
  datatype Attachment = PostIdEntry(postId: Value) | UrlEntry(url: Value)

  /** The field dictionary built from the query rows, in row order: a later
      row overwrites an earlier one with the same meta key. */
  function FieldMap(rows: seq<MetaRow>): map<string, string>
    decreases |rows|
  {
    if rows == [] then map[]
    else FieldMap(rows[..|rows| - 1])[rows[|rows| - 1].metaKey := rows[|rows| - 1].metaValue]
  }

  /** The meta keys that occur in the rows. */
  ghost function RowKeys(rows: seq<MetaRow>): set<string> {
    set i | 0 <= i < |rows| :: rows[i].metaKey
  }

  /** The dictionary has exactly the meta keys of the rows. */
  lemma {:induction false} FieldMapKeys(rows: seq<MetaRow>)
    ensures FieldMap(rows).Keys == RowKeys(rows)
    decreases |rows|
  {
    if rows != [] {
      var front := rows[..|rows| - 1];
      FieldMapKeys(front);
      forall k | k in RowKeys(rows) ensures k in FieldMap(rows) {
        var i :| 0 <= i < |rows| && rows[i].metaKey == k;
        if i < |rows| - 1 {
          assert front[i] == rows[i];
        }
      }
      forall k | k in FieldMap(rows) ensures k in RowKeys(rows) {
        if k != rows[|rows| - 1].metaKey {
          var i :| 0 <= i < |front| && front[i].metaKey == k;
          assert rows[i] == front[i];
        }
      }
    }
  }

  /** For a meta key, the value in the dictionary is the one of the last
      row with that key. */
  lemma {:induction false} FieldMapLastWins(rows: seq<MetaRow>, j: int)
    requires 0 <= j < |rows|
    requires forall i :: j < i < |rows| ==> rows[i].metaKey != rows[j].metaKey
    ensures rows[j].metaKey in FieldMap(rows)
    ensures FieldMap(rows)[rows[j].metaKey] == rows[j].metaValue
    decreases |rows|
  {
    if j < |rows| - 1 {
      var front := rows[..|rows| - 1];
      assert front[j] == rows[j];
      forall i | j < i < |front| ensures front[i].metaKey != front[j].metaKey {
        assert front[i] == rows[i];
      }
      FieldMapLastWins(front, j);
    }
  }

  /** The `get_fields` loop: fills the dictionary from the rows one by one. */
  method BuildFieldMap(rows: seq<MetaRow>) returns (fields: map<string, string>)
    ensures fields == FieldMap(rows)
    ensures fields.Keys == RowKeys(rows)
  {
    fields := map[];
    for loop := 0 to |rows|
      invariant fields == FieldMap(rows[..loop])
    {
      assert rows[..loop + 1][..loop] == rows[..loop];
      fields := fields[rows[loop].metaKey := rows[loop].metaValue];
    }
    assert rows[..|rows|] == rows;
    FieldMapKeys(rows);
  }

  /** The dictionary `get_fields` returns: the cached one when there is one,
      otherwise the one built from the rows. */
  function CachedOrBuilt(cache: Option<map<string, string>>, rows: seq<MetaRow>): map<string, string> {
    match cache
    case Some(fields) => fields
    case None => FieldMap(rows)
  }

  /** The facet label of a custom field: the ACF label when the field is an
      ACF field whose object has a label, otherwise the name itself. */
  function FieldLabel(fields: map<string, string>, name: string, fieldObject: string -> Value): (caption: Value)
    ensures FieldPrefix + name !in fields ==> caption == Str(name)
    ensures FieldPrefix + name in fields && Isset(fieldObject(fields[FieldPrefix + name]), "label") ==>
      caption == fieldObject(fields[FieldPrefix + name]).entries["label"]
    ensures FieldPrefix + name in fields && !Isset(fieldObject(fields[FieldPrefix + name]), "label") ==>
      caption == Str(name)
    ensures caption != Null
  {
    if FieldPrefix + name in fields then
      var field := fieldObject(fields[FieldPrefix + name]);
      if Isset(field, "label") then Index(field, "label") else Str(name)
    else
      Str(name)
  }

  /** The `filter_custom_fields` loop: every custom field that is an ACF
      field takes the `value` of its ACF field object; the others keep
      their value, and no key is added or removed. */
  method RewriteCustomFields(customFields: map<string, Value>, fields: map<string, string>, postId: int,
                             fieldObject: (string, int) -> Value)
    returns (r: map<string, Value>)
    ensures r.Keys == customFields.Keys
    ensures forall k :: k in customFields && FieldPrefix + k in fields ==>
      r[k] == Index(fieldObject(fields[FieldPrefix + k], postId), "value")
    ensures forall k :: k in customFields && FieldPrefix + k !in fields ==> r[k] == customFields[k]
  {
    r := customFields;
    var todo := customFields.Keys;
    while todo != {}
      invariant todo <= customFields.Keys
      invariant r.Keys == customFields.Keys
      invariant forall k :: k in customFields && k !in todo && FieldPrefix + k in fields ==>
        r[k] == Index(fieldObject(fields[FieldPrefix + k], postId), "value")
      invariant forall k :: k in customFields && (k in todo || FieldPrefix + k !in fields) ==>
        r[k] == customFields[k]
      decreases todo
    {
      var name :| name in todo;
      if FieldPrefix + name in fields {
        r := r[name := Index(fieldObject(fields[FieldPrefix + name], postId), "value")];
      }
      todo := todo - {name};
    }
  }

  /** The attachment an ACF field object contributes: only a "file" field
      with a non-empty value does, and its `save_format` decides the shape. */
  function FileEntry(field: Value): (entry: Option<Attachment>)
    ensures entry.Some? ==> !Empty(Index(field, "value")) && Index(field, "type") == Str("file")
    ensures !Empty(Index(field, "value")) && Index(field, "type") == Str("file") ==>
      (Index(field, "save_format") == Str("id") ==> entry == Some(PostIdEntry(Index(field, "value")))) &&
      (Index(field, "save_format") == Str("object") ==>
        entry == Some(PostIdEntry(Index(Index(field, "value"), "id")))) &&
      (Index(field, "save_format") == Str("url") ==> entry == Some(UrlEntry(Index(field, "value")))) &&
      (Index(field, "save_format").Str? && Index(field, "save_format").s !in ["id", "object", "url"] ==>
        entry == None) &&
      (Index(field, "save_format") == Bool(true) ==> entry == Some(PostIdEntry(Index(field, "value"))))
    ensures (!LooseEqualsWord(Index(field, "save_format"), "id") &&
             !LooseEqualsWord(Index(field, "save_format"), "object") &&
             !LooseEqualsWord(Index(field, "save_format"), "url")) ==> entry == None
  {
    var value := Index(field, "value");
    if Empty(value) || Index(field, "type") != Str("file") then None
    else
      var format := Index(field, "save_format");
      if LooseEqualsWord(format, "id") then Some(PostIdEntry(value))
      else if LooseEqualsWord(format, "object") then Some(PostIdEntry(Index(value, "id")))
      else if LooseEqualsWord(format, "url") then Some(UrlEntry(value))
      else None
  }

  /** The attachments a list of field objects contributes, in field order:
      at most one per field. */
  function FileEntries(fieldObjects: seq<Value>): (entries: seq<Attachment>)
    ensures |entries| <= |fieldObjects|
    decreases |fieldObjects|
  {
    if fieldObjects == [] then []
    else
      var last := fieldObjects[|fieldObjects| - 1];
      FileEntries(fieldObjects[..|fieldObjects| - 1])
        + (match FileEntry(last) case Some(e) => [e] case None => [])
  }

  /** Entries come in field order: the entries of two field lists in a row
      are those of the first followed by those of the second. */
  lemma {:induction false} FileEntriesAppend(first: seq<Value>, second: seq<Value>)
    ensures FileEntries(first + second) == FileEntries(first) + FileEntries(second)
    decreases |second|
  {
    if second == [] {
      assert first + second == first;
    } else {
      var front := second[..|second| - 1];
      assert (first + second)[..|first + second| - 1] == first + front;
      FileEntriesAppend(first, front);
    }
  }

  /** Every entry comes from some field of the list. */
  lemma {:induction false} FileEntriesFromFields(fieldObjects: seq<Value>, k: int)
    requires 0 <= k < |FileEntries(fieldObjects)|
    ensures exists i :: 0 <= i < |fieldObjects| && FileEntry(fieldObjects[i]) == Some(FileEntries(fieldObjects)[k])
    decreases |fieldObjects|
  {
    var front := fieldObjects[..|fieldObjects| - 1];
    var n := |fieldObjects| - 1;
    if k < |FileEntries(front)| {
      FileEntriesFromFields(front, k);
      var i :| 0 <= i < |front| && FileEntry(front[i]) == Some(FileEntries(front)[k]);
      assert fieldObjects[i] == front[i];
    } else {
      assert FileEntry(fieldObjects[n]) == Some(FileEntries(fieldObjects)[k]);
    }
  }

  /** The field objects of a post: `get_field_objects` gives false (None)
      when the post has none. */
  function FieldList(fieldObjects: Option<seq<Value>>): seq<Value> {
    match fieldObjects
    case Some(fs) => fs
    case None => []
  }

  /** `filter_get_post_attachments`: unless file fields are to be indexed,
      the attachments are returned as given; otherwise each field's entry
      is appended, in field order. */
  method FilterGetPostAttachments(attachments: seq<Attachment>, doIndexFiles: bool,
                                  fieldObjects: Option<seq<Value>>)
    returns (r: seq<Attachment>)
    ensures !doIndexFiles ==> r == attachments
    ensures doIndexFiles ==> r == attachments + FileEntries(FieldList(fieldObjects))
    ensures |attachments| <= |r| <= |attachments| + |FieldList(fieldObjects)|
    ensures r[..|attachments|] == attachments
  {
    r := attachments;
    if !doIndexFiles {
      return;
    }
    if fieldObjects.Some? && |fieldObjects.value| > 0 {
      var fs := fieldObjects.value;
      for i := 0 to |fs|
        invariant r == attachments + FileEntries(fs[..i])
      {
        assert fs[..i + 1][..i] == fs[..i];
        var field := fs[i];
        var value := Index(field, "value");
        if !Empty(value) && Index(field, "type") == Str("file") {
          var format := Index(field, "save_format");
          if LooseEqualsWord(format, "id") {
            r := r + [PostIdEntry(value)];
          } else if LooseEqualsWord(format, "object") {
            r := r + [PostIdEntry(Index(value, "id"))];
          } else if LooseEqualsWord(format, "url") {
            r := r + [UrlEntry(value)];
          }
        }
      }
      assert fs[..|fs|] == fs;
    }
  }

  /** The ACF extension object. `fields` is the cache of the field
      dictionary: it is built at the first use and never rebuilt. */
  class PluginAcf {
    const options: map<string, Value>
    var fields: Option<map<string, string>>

    constructor (optionData: map<string, Value>)
      ensures options == optionData
      ensures fields == None
    {
      options := optionData;
      fields := None;
    }

    /** The field dictionary: the cached one if set, else built from the
        meta query rows and cached. */
    method GetFields(rows: seq<MetaRow>) returns (r: map<string, string>)
      modifies this`fields
      ensures old(fields).Some? ==> r == old(fields).value
      ensures old(fields).None? ==> r == FieldMap(rows)
      ensures fields == Some(r)
    {
      if fields.Some? {
        return fields.value;
      }
      r := BuildFieldMap(rows);
      fields := Some(r);
    }

    /** The facet label of a custom field. With the label option unset the
        name is returned and the cache is not touched. */
    method GetFieldLabel(name: string, rows: seq<MetaRow>, fieldObject: string -> Value) returns (caption: Value)
      modifies this`fields
      ensures !IssetKey(options, DisplayLabelOption) ==> caption == Str(name) && fields == old(fields)
      ensures IssetKey(options, DisplayLabelOption) ==>
        fields == Some(CachedOrBuilt(old(fields), rows)) &&
        caption == FieldLabel(CachedOrBuilt(old(fields), rows), name, fieldObject)
    {
      if !IssetKey(options, DisplayLabelOption) {
        return Str(name);
      }
      var acfFields := GetFields(rows);
      caption := FieldLabel(acfFields, name, fieldObject);
    }

    /** `filter_custom_fields`: a missing (null) dictionary counts as empty;
        the result has the same keys, with ACF fields taking their ACF
        values. */
    method FilterCustomFields(customFields: Option<map<string, Value>>, postId: int, rows: seq<MetaRow>,
                              fieldObject: (string, int) -> Value)
      returns (r: map<string, Value>)
      modifies this`fields
      ensures fields == Some(CachedOrBuilt(old(fields), rows))
      ensures customFields.None? ==> r == map[]
      ensures customFields.Some? ==> r.Keys == customFields.value.Keys
      ensures forall k :: k in r ==>
        if FieldPrefix + k in fields.value
        then r[k] == Index(fieldObject(fields.value[FieldPrefix + k], postId), "value")
        else customFields.Some? && r[k] == customFields.value[k]
    {
      var given := if customFields.Some? then customFields.value else map[];
      var acfFields := GetFields(rows);
      r := RewriteCustomFields(given, acfFields, postId, fieldObject);
    }
  }
}
