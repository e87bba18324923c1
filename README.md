# WPSOLR metabox and ACF bridge, modelled in Dafny

This project models two WordPress extensions of the WPSOLR search plugin.

- **The metabox** (`WpsolrMetabox`, `metabox.dfy`). Editors use a checkbox on the post-edit screen to exclude one post from indexing. The module models:
  - the singleton registration;
  - the rule that decides whether a post's type is indexable, and so whether the box is shown;
  - the save callback, with its autosave, revision and nonce guard;
  - the reading of the checkbox from post meta.

  Post meta is a map from `(post id, meta key)` to the stored values in row order. It lives in a `PostMetaStore` object, which the save callback updates.
- **The ACF bridge** (`Acf`, `acf.dfy`). This connects the plugin to Advanced Custom Fields. The module models:
  - the cached dictionary from `_name` meta keys to ACF field keys;
  - the facet label lookup;
  - the rewrite of a post's custom fields to their ACF values;
  - the extraction of attachments from ACF "file" fields.

  `PluginAcf` is a class whose `fields` variable is the cache.

`php.dfy` (`Php`) holds the PHP rules these decisions use:
- `empty()`;
- `isset()` on an array element;
- reading an array element, which gives null when the element is missing;
- the loose `==` that a `switch` applies against a word.

Every WordPress or ACF call other than the two post-meta calls is an input to the model: a value or a function passed in. These calls are:
- `wp_verify_nonce`, `sanitize_text_field`, `get_field_object` and `get_field_objects`;
- `wp_is_post_autosave` and `wp_is_post_revision`, as two booleans;
- the plugin options;
- the rows of the meta query;
- `WPSOLR_Metabox::get_metabox_is_do_index_acf_field_files`, as a boolean. This function is not defined in the metabox file.

The two post-meta calls are defined on the post-meta map. `get_post_custom_values` gives the stored values of a key, or nothing when the post has none. `update_post_meta` follows WordPress's documented behaviour: every stored value of the key is replaced by the new one, and a key with no stored value gets one row.

## Model

| member | source | states |
|---|---|---|
| `WpsolrMetabox.Registry.Register` | classes/metabox/wpsolr-metabox.php:19-24 | after any call a metabox is registered. The first call creates a fresh one. Any later call keeps the instance already there, so registering is idempotent |
| `WpsolrMetabox.IndexableTypes` | classes/metabox/wpsolr-metabox.php:99-109 | an option that is not an array counts as the empty list. The result is the post types followed by the attachment types: its length is the sum of the two lengths, its elements are theirs in order, and a type is in it iff it is in either list |
| `WpsolrMetabox.IsShowMetaBox` | classes/metabox/wpsolr-metabox.php:111-135 | for an attachment the box is shown iff its MIME type is in one of the lists. For any other post it is shown iff its post type is in one of them. With neither option an array, it is never shown |
| `WpsolrMetabox.Metabox.SavePostCallback` | classes/metabox/wpsolr-metabox.php:143-160 | an autosave, a revision, or a missing or unverified nonce leaves post meta unchanged. Otherwise post meta becomes the update of `_wpsolr-meta-is-do-not-index` for that post, with the sanitized submitted value, or `""` when nothing was submitted |
| `WpsolrMetabox.UpdatePostMeta` | classes/metabox/wpsolr-metabox.php:158 | only the one `(post, key)` entry is added or changed. It holds at least one value, all of them the new one, as many as before when there were any. Every other entry is unchanged |
| `WpsolrMetabox.CheckboxValue` | classes/metabox/wpsolr-metabox.php:170-175 | on iff the post has a value list for the field and its first element is neither `""` nor `"0"`. So any other string is on, not only `yes` |
| `WpsolrMetabox.IsDoNotIndex` | classes/metabox/wpsolr-metabox.php:186-189 | a post is excluded iff the first stored value of `_wpsolr-meta-is-do-not-index` exists and is not PHP-empty. This is the checkbox reading of that field |
| `WpsolrMetabox.SaveDecidesExclusion` | classes/metabox/wpsolr-metabox.php:158-189 | after the guarded write, the saved post is excluded iff the written value is not PHP-empty |
| `WpsolrMetabox.SaveKeepsOtherPosts` | classes/metabox/wpsolr-metabox.php:158-189 | a write for one post leaves the exclusion of every other post unchanged |
| `WpsolrMetabox.CheckboxRoundTrip` | classes/metabox/wpsolr-metabox.php:150-189 | suppose the request carries the checkbox only as `yes`, and sanitizing keeps `yes`. After a save, the post is excluded iff the checkbox was submitted |
| `Acf.PluginAcf.constructor` | classes/extensions/acf/plugin-acf.php:39-41 | the options are the extension's option data and the field cache starts unset |
| `Acf.FieldMapKeys` | classes/extensions/acf/plugin-acf.php:82-86 | the built dictionary has exactly the meta keys of the rows |
| `Acf.FieldMapLastWins` | classes/extensions/acf/plugin-acf.php:82-86 | for a duplicated meta key, the dictionary holds the value of the last row with that key |
| `Acf.BuildFieldMap` | classes/extensions/acf/plugin-acf.php:74-86 | the loop builds the row dictionary, whose keys are the rows' meta keys |
| `Acf.PluginAcf.GetFields` | classes/extensions/acf/plugin-acf.php:66-92 | once the cache is set it is returned as it is and kept, so a second call returns the identical map. Otherwise the dictionary is built from the rows and cached |
| `Acf.FieldLabel` | classes/extensions/acf/plugin-acf.php:114-122 | if `_name` is not in the dictionary, the result is the name. If it is there and the field object has a non-null `label`, the result is that label. If it is there without a label, the result is the name. The result is never null |
| `Acf.PluginAcf.GetFieldLabel` | classes/extensions/acf/plugin-acf.php:102-123 | without the `display_acf_label_on_facet` option set, the result is the name and the cache is untouched. With it, the cache is filled, or kept when already set, and the result is the dictionary-based label |
| `Acf.RewriteCustomFields` | classes/extensions/acf/plugin-acf.php:140-151 | the key set is unchanged. A key `k` with `_k` in the dictionary gets the `value` of its ACF field object for the post. Every other key keeps its value |
| `Acf.PluginAcf.FilterCustomFields` | classes/extensions/acf/plugin-acf.php:134-152 | a null dictionary gives an empty result. Otherwise the keys are kept, and each value is rewritten as above against the cached dictionary |
| `Acf.FileEntry` | classes/extensions/acf/plugin-acf.php:176-194 | only a `file` field with a non-empty value gives an entry. Format `id` gives `{post_id: value}`, `object` gives `{post_id: value['id']}` and `url` gives `{url: value}`. `true` matches the `id` case. Any format that loosely equals none of the three, including a missing, null, integer or array format, gives nothing |
| `Acf.FileEntries` | classes/extensions/acf/plugin-acf.php:173-196 | at most one entry per field |
| `Acf.FileEntriesAppend` | classes/extensions/acf/plugin-acf.php:173-196 | entries follow field order. The entries of two field lists in a row are the first list's entries followed by the second's |
| `Acf.FileEntriesFromFields` | classes/extensions/acf/plugin-acf.php:173-196 | every appended entry is the entry of some field of the list |
| `Acf.FilterGetPostAttachments` | classes/extensions/acf/plugin-acf.php:161-201 | with the file guard off, the input comes back unchanged. With it on, the input is a prefix of the result, followed by the field entries in order. At most one entry is added per field |

## Left out

- HTML output: the metabox form and the "not indexable" messages are output only. Only the boolean decision is modelled. This also leaves out `get_post_type_object`, which is used only for the message.
- Hook registration: the `add_action`, `add_filter` and `add_meta_box` calls in both constructors, and `PluginAcf::create`, are framework wiring.
- The SQL query of `get_fields`: its result rows are an input. Its `LIKE` filter is not modelled, and in it `_` is a wildcard, not a literal prefix.
- WordPress and ACF functions whose code is outside the extension are inputs. These are nonces, sanitizing, autosave and revision checks, field objects, option data, and the do-index-files guard.
- `update_post_meta`: serialization, slashing and meta sanitizing are not modelled. Writes to a revision that are redirected to the parent post are not modelled either.
- PHP loose typing: a non-array option in `get_is_show_meta_box` is modelled. Beyond that:
  - type lists are strings;
  - PHP arrays have string keys only;
  - floats and objects are not values;
  - reading an element of a non-array gives null, whereas a real string offset read would give a character;
  - `$_POST` fields are strings;
  - a custom-field dictionary that is not an array and not null is not modelled.
- The iteration order of `filter_custom_fields`: the model uses an unordered map. Each key is rewritten independently of the others, so the order does not affect the result.
- `Acf.FileEntry`: the loose `==` of `switch` follows PHP 8. Under PHP 7, an integer `0` would also match `'id'`.
