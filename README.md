# MDTO metadata codec — a Dafny model

MDTO (Metagegevens voor duurzaam toegankelijke overheidsinformatie) is the
metadata standard of the Dutch National Archive. The Python package `mdto`
represents its records as dataclasses. It:
- validates them against the schema's rules;
- writes them as `<MDTO>` XML;
- reads such XML back;
- computes the label and PRONOM format information of a file.

This project models the core of that package. The model has four parts:

- **Entity model.** One `Entity` value per dataclass instance: its kind plus its field values.
  - A static descriptor table lists each kind's fields with name, element type and cardinality (`schema.dfy`).
  - A field holds `None`, a string, an integer, a nested data group, or a list of these.
- **Current module** (`mdto/classes.py`, `mdto/utilities.py`, `mdto/helpers.py`):
  - the recursive validator (`validate.dfy`, `urls.dfy`);
  - the wire order of the fields (`fieldorder.dfy`);
  - the encoder `to_xml` (`encode.dfy`);
  - the decoder `from_xml` and its parser tables (`decode.dfy`, `parsers.dfy`);
  - `save` (`save.dfy`);
  - the checksum label, PRONOM backend selection and fido parsing (`utilities.dfy`).
- **Older module `mdto/mdto.py`** (`setters.dfy`, `legacy.dfy`, plus a `Legacy` dialect of the encoder and decoder):
  - URL-checking property setters on a mutable `Record` class;
  - an encoder without list-of-strings support;
  - a `replace`-based checksum label;
  - `save` without validation;
  - its own fido reader.
- **Round trip** (`roundtrip.dfy`, `reencode.dfy`).
  - For every object the encoder can write, `from_xml` returns that object with each empty string read back as `None`, each empty list dropped and each one-item list unwrapped. lxml writes an empty text as an empty element and reads an empty element as having no text.
  - When no string of the object is empty, writing the decoded object again gives the same document. This is the serialisation chain of the example documents. An empty string breaks the chain: it comes back as `None`, which writes no element.

Both the encoder and the decoder exist in two forms:
- **Imperative methods** follow the source's loops:
  - an `ElementBuilder` whose children are appended in place;
  - the bucket dictionary filled child by child, then cleaned up.
- **Specification functions**: each method is proved equal to one of these.
- **Lemmas** state the properties of the specification functions.

XML is modelled as a tree of `Element(tag, text, children)`. The namespace is
written into tags as `{https://www.nationaalarchief.nl/mdto}`. Parsing and
printing of XML bytes are outside the model.

## Model

| member | source | states |
|---|---|---|
| Xml.RemovePrefix | mdto/utilities.py:527-528 | `str.removeprefix`: only an exact leading prefix is removed, anything else is returned unchanged |
| Xml.NatToString | mdto/classes.py:149-152 | the decimal text of a natural has at least one digit and a leading zero only for 0 |
| Xml.IntToString | mdto/classes.py:149-152 | `str(i)` is non-empty and starts with '-' exactly for negative numbers |
| Xml.IntToStringRoundTrip | mdto/utilities.py:361-362 | `int(str(i)) == i` for every integer: the decoder's `parse_int` inverts the encoder's `str` |
| Xml.DigitsValueOfNat | mdto/utilities.py:361-362 | the digits written for a natural have that natural as their value |
| Xml.IntTextIsXml | mdto/classes.py:149-152 | `str(i)` of an integer is always text lxml accepts, so an integer field never makes `to_xml` raise |
| Urls.ValidateUrlOrUrls | mdto/helpers.py:35-48 | `None` passes; the check is undefined (Python raises) exactly for an integer or a data group |
| Urls.AllUrlsIff | mdto/helpers.py:47-48 | `all(validators.url(u) for u in urls)` holds exactly when every item is an accepted string, the empty list included |
| Urls.AllUrlsAppend | mdto/helpers.py:47-48 | validity of a concatenated list is the conjunction of the parts' validity |
| Urls.AbsentIsValid | mdto/helpers.py:44-45 | URLs are never mandatory: `None` always passes |
| Urls.StringIsSingletonList | mdto/helpers.py:46-48 | a string is judged exactly as the one-item list holding it, which is `isUrl` of the string |
| Urls.ListValidIff | mdto/helpers.py:47-48 | a list passes exactly when all its items are accepted strings; the empty list passes |
| Urls.ListConcat | mdto/helpers.py:47-48 | checking two concatenated lists is checking both |
| Schema.BestandNamesDistinct | mdto/classes.py:628-650 | no two `Bestand` fields (inherited ones included) share a name |
| Schema.GroupNamesDistinct | mdto/classes.py:155-374 | no two fields of a data group share a name, so a tag identifies a field |
| FieldOrder.FieldNamesDistinct | mdto/classes.py:573-606 | field names are unique in every kind; for `Informatieobject` this follows from the rank table giving 23 names 23 ranks |
| FieldOrder.Insert | mdto/classes.py:603-605 | inserting into a sequence adds exactly that element (as a multiset) and keeps the head or puts `x` first |
| FieldOrder.SortBy | mdto/classes.py:603-605 | `sorted(…, key=…)` returns a permutation of its input |
| FieldOrder.InsertSorted | mdto/classes.py:603-605 | insertion keeps a sequence sorted by the key |
| FieldOrder.SortBySorted | mdto/classes.py:603-605 | the sort's output is ordered by the key |
| FieldOrder.PermutationBelow | mdto/classes.py:93-103 | a permutation of `range(n)` holds only positions below `n` |
| FieldOrder.PermutationDistinct | mdto/classes.py:93-103 | a permutation of `range(n)` holds no position twice |
| FieldOrder.PositionIsKey | mdto/classes.py:603-605 | when the keys of `0 … n-1` are distinct and below `n`, the sort puts each field at the position equal to its key |
| FieldOrder.StrictlyIncreasingIsIdentity | mdto/classes.py:603-605 | `n` strictly increasing naturals below `n` are `0 … n-1` |
| FieldOrder.WireOrder | mdto/classes.py:93-103 | the emission order of every kind lists each declared field exactly once |
| FieldOrder.RangeIsPermutation | mdto/classes.py:93-103 | declaration order, `range(n)`, is a permutation |
| FieldOrder.OrderInvertsRanks | mdto/classes.py:575-601 | the rank table is a bijection on the 23 `Informatieobject` fields, inverted by the emission order |
| FieldOrder.KeyIsRank | mdto/classes.py:603-605 | the sort key of each declared field is `sorting_mapping[f.name]` |
| FieldOrder.KeyInverse | mdto/classes.py:575-605 | the emission order undoes the sort key |
| FieldOrder.KeysDistinct | mdto/classes.py:575-601 | the 23 sort keys are distinct and below 23 |
| FieldOrder.SortedByKey | mdto/classes.py:603-605 | sorting the 23 fields puts each one at the position equal to its rank |
| FieldOrder.InformatieobjectOrderIsSorted | mdto/classes.py:573-606 | sorting the `Informatieobject` fields by rank gives exactly the emission order used by the encoder |
| FieldOrder.InformatieobjectOrderPermutes | mdto/classes.py:573-606 | the `Informatieobject` emission order lists each of the 23 declared fields once |
| FieldOrder.WireNames | mdto/classes.py:93-103 | the emitted names are the declared names permuted by the wire order, one per field |
| FieldOrder.DeclarationOrderKept | mdto/classes.py:93-103 | every kind without an override emits its fields in declaration order |
| FieldOrder.BegripWireNames | mdto/classes.py:203-207 | `BegripGegevens` emits label, code, list (code before list, unlike the declaration) |
| FieldOrder.BestandWireNames | mdto/classes.py:652-656 | `Bestand` swaps its last two fields: `URLBestand` before `isRepresentatieVan` |
| FieldOrder.InformatieobjectWireNames | mdto/classes.py:575-601 | `Informatieobject` emits `identificatie` and `naam` first, `waardering` after `event`, `archiefvormer` after `gerelateerdInformatieobject`, `beperkingGebruik` last |
| ParserTables.ParserTablesMatchFields | mdto/utilities.py:411-520 | each hand-written parser table has exactly the class's field names as keys, each mapped to the parser its declared type calls for |
| ParserTables.DeclarationOrderTable | mdto/utilities.py:418-480 | the tables of termijn, beperking, raadpleeglocatie, dekking, event, gerelateerd, betrokkene and checksum cover their fields and have no other keys |
| ParserTables.BegripTable | mdto/utilities.py:411-416 | the `BegripGegevens` table covers label, list and code and has no other keys |
| ParserTables.BestandTable | mdto/utilities.py:511-520 | the `Bestand` table, written in a different order than the declaration, covers every field and has no other keys |
| ParserTables.InformatieobjectTable | mdto/utilities.py:482-509 | the 23-entry `Informatieobject` table covers every field and has no other keys |
| ParserTables.TableFromPositions | mdto/utilities.py:411-520 | a table whose entries are the fields' parsers in any order that is a bijection covers the fields and has no stray key |
| ParserTables.DictOfDistinct | mdto/utilities.py:411-520 | with distinct keys, a dict display finds every entry under its key and holds no other key |
| Encoding.ElementBuilder.SubElement | mdto/classes.py:149-152 | `ET.SubElement(...).text = …` appends exactly one element; it carries the text when lxml accepts it, and the call reports whether lxml raised `ValueError` |
| Encoding.ElementBuilder.Append | mdto/classes.py:146-148 | `append` adds exactly the child at the end |
| Encoding.ElementBuilder.Built | mdto/classes.py:105-126 | the finished element carries the builder's tag and children and no text |
| Encoding.ToXml | mdto/classes.py:105-126 | `to_xml(root)` returns the element the specification `EncodeEntity` defines, or its error |
| Encoding.AppendFields | mdto/classes.py:121-125 | the loop over the wire-ordered fields appends their elements in order; the first failing field stops it with that field's error |
| Encoding.ProcessField | mdto/classes.py:128-152 | `_process_dataclass_field` appends exactly the field's elements, or fails as the specification does |
| Encoding.ProcessItems | mdto/classes.py:137-145 | the list branch appends one element per item, in list order, or fails on the first failing item |
| Encoding.ProcessItem | mdto/classes.py:140-145 | one item: a string becomes a text element (or raises when it is not XML text), anything else goes through its own `to_xml` |
| Encoding.CallToXml | mdto/classes.py:146-148 | `x.to_xml(name)` returns the specification's element or error |
| Encoding.ObjectToXml | mdto/classes.py:391-428 | `Object.to_xml` returns `<MDTO>` holding the object's element, as specified |
| Encoding.FieldsErrorPersists | mdto/classes.py:121-125 | once a field fails, every longer prefix of the fields fails with the same error |
| Encoding.ItemsErrorPersists | mdto/classes.py:138-145 | once a list item fails, the rest of the list fails with the same error |
| Encoding.CallOkIff | mdto/classes.py:146-148 | `x.to_xml(name)` succeeds exactly on an encodable data group, and the element is named `name` |
| Encoding.EntityOkIff | mdto/classes.py:105-152 | `to_xml` succeeds exactly when every value, at any depth, is absent, an integer, a string of XML characters, a data group, or a list of such strings and data groups |
| Encoding.FieldsOkIff | mdto/classes.py:121-125 | the fields loop succeeds exactly when every visited field encodes |
| Encoding.ValueOkIff | mdto/classes.py:128-152 | one field value encodes exactly when it is encodable |
| Encoding.ItemsOkIff | mdto/classes.py:137-145 | a list encodes exactly when each of its items does |
| Encoding.ListOneElementPerItem | mdto/classes.py:137-145 | a list yields one element per item, in order, each that item's own element; it fails exactly when an item fails |
| Encoding.Repeat | mdto/classes.py:137-145 | `n` copies of a tag |
| Encoding.FieldElements | mdto/classes.py:128-152 | every element of a field is named after the field, one per item (none for `None`); a string or integer becomes the text |
| Encoding.FieldsTags | mdto/classes.py:121-125 | the tags of the encoded fields are the field names in wire order, each repeated per item |
| Encoding.EncodedChildTags | mdto/classes.py:105-126 | an encoded instance is named after its root, and its children's tags are the wire-ordered names repeated per item |
| Encoding.FullInstanceTags | mdto/classes.py:105-126 | when every field holds one value, the children's tags are exactly the wire-ordered field names |
| Encoding.SlotTagsAreNames | mdto/classes.py:121-125 | with one value per field, the tags of the first `n` fields are the first `n` wire names |
| Encoding.BegripElementOrder | mdto/classes.py:203-207 | a fully set `BegripGegevens` is written as label, code, list |
| Encoding.LegacyAgrees | mdto/mdto.py:47-90 | without strings in lists, the older and the current encoder write the same tree |
| Encoding.FieldsAgree | mdto/mdto.py:47-69 | the two encoders' field loops agree without string list items |
| Encoding.ValueAgrees | mdto/mdto.py:71-90 | the two encoders agree on a field value without string list items |
| Encoding.ItemsAgree | mdto/mdto.py:79-82 | the two encoders agree on a list without string items |
| Encoding.CallAgrees | mdto/mdto.py:71-90 | the two encoders agree on a nested data group without string list items |
| Encoding.StringListEncoding | mdto/classes.py:140-143 | a list of strings (such as `trefwoord`) is written by the current encoder exactly when every string is XML text, as one text element per string; the older one raises `AttributeError` (mdto/mdto.py:79-82) |
| Encoding.ControlCharacterRaises | mdto/classes.py:140-152 | a string holding NUL or another control character below tab makes `to_xml` raise `ValueError`, as a scalar and as a list item |
| Encoding.LegacyFailsOnFirstItem | mdto/mdto.py:79-82 | the older encoder fails on a list whose first item is a string |
| Encoding.NestedObjectRaises | mdto/classes.py:391 | an `Informatieobject` or `Bestand` used as a field value makes `to_xml` raise (its `to_xml` takes no root) |
| Encoding.ObjectTreeShape | mdto/classes.py:391-428 | `<MDTO>` is written exactly for encodable objects and has one child, named after the object kind |
| Decoding.FromXmlEnv | mdto/utilities.py:329-538 | the decoder's environment uses the parser tables of `from_xml` and the classes of the chosen module |
| Decoding.ParseInt | mdto/utilities.py:361-362 | `parse_int` yields an integer when it succeeds |
| Decoding.ParseIntRoundTrip | mdto/utilities.py:361-362 | `parse_int` reads back the decimal text `str(i)` writes |
| Decoding.Fill | mdto/utilities.py:389-398 | the buckets after the loop have exactly the table's keys |
| Decoding.Construct | mdto/utilities.py:409 | `mdto_class(**args)` succeeds (current module) exactly on accepted keyword arguments, storing each field's argument or `None` |
| Decoding.LegacyConstruct | mdto/mdto.py:314-333 | an older-module instance that is built has its kind and all its fields |
| Decoding.ElemToMdto | mdto/utilities.py:381-409 | `elem_to_mdto` returns what the specification `DecodeWith` defines: fill the buckets, collapse them, call the class |
| Decoding.CollectChildren | mdto/utilities.py:391-398 | the loop over the children fills the buckets as specified, stopping at the first failing child |
| Decoding.AddChild | mdto/utilities.py:392-398 | one pass of the loop strips the namespace, looks up the parser and appends the parsed child to its bucket |
| Decoding.ParseChild | mdto/utilities.py:396-398 | one child through its parser; a data group recurses into `elem_to_mdto` |
| Decoding.Cleanup | mdto/utilities.py:401-407 | the cleanup loop makes an empty bucket `None`, a one-item bucket its item and a longer bucket a list |
| Decoding.FromXml | mdto/utilities.py:522-538 | `from_xml` on a parsed document returns what `Decode` specifies |
| Decoding.GroupParses | mdto/utilities.py:409 | a group parser returns the instance its class builds from the element |
| Decoding.FillErrorPersists | mdto/utilities.py:391-398 | once a child fails, the loop's result stays that failure |
| Decoding.Positions | mdto/utilities.py:391-398 | the positions naming a field are in range, name that field and are strictly increasing (document order) |
| Decoding.ParseAt | mdto/utilities.py:391-398 | parsing a list of positions succeeds with one value per position |
| Decoding.ParseAtSnoc | mdto/utilities.py:397-398 | parsing one more position appends its value |
| Decoding.FillOkIff | mdto/utilities.py:391-398 | the loop gets through the first `n` children exactly when each names a table key and parses |
| Decoding.FillBuckets | mdto/utilities.py:389-398 | after the loop, every bucket holds the parsed children naming its field, in document order |
| Decoding.FillStep | mdto/utilities.py:392-398 | the last child got through and its value was appended to its field's bucket |
| Decoding.PositionsStep | mdto/utilities.py:392-398 | one more child joins a field's parsed run exactly when it names that field |
| Decoding.FillFirstError | mdto/utilities.py:391-398 | the loop raises the error of the first failing child |
| Decoding.UnknownTagFails | mdto/utilities.py:396 | a child whose tag has no parser is not skipped: the element fails with `KeyError` |
| Decoding.Items | mdto/classes.py:134-152 | the encoder writes no element for `None`, one per item for a list, one otherwise |
| Decoding.CollapseInverse | mdto/utilities.py:401-407 | the cleanup undoes the listing of a value's items unless it is an empty or one-item list, and vice versa |
| Decoding.NamespaceStripped | mdto/utilities.py:392-394 | only the exact MDTO namespace is removed from a child's tag |
| Decoding.DecodedArgumentsAccepted | mdto/utilities.py:401-409 | the buckets of a `from_xml` table always make keyword arguments the class accepts |
| Decoding.KeysOfTable | mdto/utilities.py:389-409 | a table that covers the fields and has only field names as keys yields accepted arguments |
| Decoding.DecodedFields | mdto/utilities.py:381-409 | `elem_to_mdto` succeeds exactly when every child names a field and parses; then each field holds its collapsed, document-ordered bucket, and a field with no child is `None` |
| Decoding.DecodedValues | mdto/utilities.py:401-409 | the success case of the above: each field value is its collapsed bucket |
| Decoding.DecodedBucket | mdto/utilities.py:389-398 | one field's bucket holds its children parsed in document order by the parser of its declared type |
| Decoding.EmptyElementDecodes | mdto/utilities.py:381-409 | an element with no children decodes to an instance whose every field is `None`; a missing mandatory child is no decoding error |
| Decoding.RootDispatch | mdto/utilities.py:522-538 | the root's first child selects `Informatieobject` or `Bestand`, anything else is a `ValueError`, no child an `IndexError`; a decoded object is of an object kind |
| SeqFacts.Join | mdto/classes.py:22 | `sep.join`: joining one part gives that part, and the result always starts with the first part |
| Validation.ReprChar | mdto/classes.py:684 | `repr` copies a character exactly when it is not the quote, a backslash, tab, line feed, carriage return or a `\xhh` character; any other is written as an escape starting with a backslash |
| Validation.ReprBody | mdto/classes.py:684 | the escaped characters of a string are at least as many as the string's |
| Validation.StrRepr | mdto/classes.py:684 | `repr` of a string starts and ends with the chosen quote and is at least two longer than the string |
| Validation.PlainRepr | mdto/classes.py:684 | a string without quote, backslash or escaped control is written as itself between single quotes |
| Validation.PlainReprBody | mdto/classes.py:684 | characters that `repr` copies come out unchanged and in order |
| Validation.ApostropheRepr | mdto/classes.py:684 | `it's` is written between double quotes, its apostrophe unescaped |
| Validation.ControlRepr | mdto/classes.py:684 | a tab is written `\t` and NUL `\x00` |
| Validation.ItemReprs | mdto/classes.py:684 | a list's `repr` has one text per item |
| Validation.UrlListText | mdto/classes.py:684 | a list of URLs is shown as `["it's", 'x']`: brackets, items quoted by `repr`, separated by `, ` |
| Validation.UrlErrorText | mdto/classes.py:21-24 | `str()` of a URL error is the dotted path, `:\n\t`, `url `, the value as the f-string shows it, then ` is malformed` |
| Validation.UrlErrorQuotesText | mdto/classes.py:326-339 | every malformed-URL error `validate` raises, at any depth, quotes a string or a list of strings, never a data group |
| Validation.NestedUrlPathText | tests/test_custom_validate.py:23-33 | the six segments of the nested URL error joined by dots |
| Validation.NestedUrlErrorText | tests/test_custom_validate.py:23-33 | the URL test's error reads `Informatieobject.raadpleeglocatie.informatieobject.raadpleeglocatie.RaadpleeglocatieGegevens.raadpleeglocatieOnline:\n\turl hppts://www.example.com is malformed`, which the test's pattern matches |
| Validation.DistinctTypeNames | mdto/classes.py:70-78 | the type names in a rejected list's message are exactly those of its items, each once |
| Validation.NameWarning | mdto/classes.py:430-436 | a warning is logged exactly when `naam` is a string longer than 80 |
| Validation.LoggedOnSuccess | mdto/classes.py:33-91 | when `validate` returns, the warnings it returns are exactly those it logged along the way |
| Validation.LoggedFieldsOnSuccess | mdto/classes.py:50-91 | the same for the walk over the fields |
| Validation.LoggedFieldOnSuccess | mdto/classes.py:83-91 | the same for one field, recursing into a nested data group |
| Validation.BestandWarnsThenRaises | mdto/classes.py:678-685 | a `Bestand` with a too-long name and a malformed `URLBestand` logs the long-name warning (mdto/classes.py:430-436) and then raises the URL error |
| Validation.Structural | mdto/classes.py:53-91 | the validator descends only into the data group the field holds |
| Validation.FieldVerdicts | mdto/classes.py:53-91 | falsy optional values are skipped and falsy mandatory ones rejected; lists only where the type allows them; items only type-checked; a wrongly typed scalar rejected; a data group descended into |
| Validation.ListItemsReport | mdto/classes.py:68-78 | a rejected list names the expected type and each item type it found |
| Validation.NestedError | mdto/classes.py:83-91 | a nested error is re-raised with class and field prepended and the message unchanged; nested success is field success |
| Validation.CheckFieldsOkIff | mdto/classes.py:50-91 | the walk over the fields succeeds exactly when every field passes |
| Validation.CheckFieldsFirstFailure | mdto/classes.py:50-91 | the walk raises the failure of the first failing field |
| Validation.CheckFieldsFailureFrom | mdto/classes.py:50-91 | every failure of the walk is the failure of some field |
| Validation.ValidateOkIff | mdto/classes.py:33-91 | `validate` passes exactly when every declared field passes and the subclass override adds nothing |
| Validation.ValidateFirstFailure | mdto/classes.py:33-91 | `validate` raises the failure of the first failing field in declaration order |
| Validation.ValidateErrorPath | mdto/classes.py:83-91 | every error path follows the chain of nested fields (class, field pairs); a URL error ends with one of the fixed override paths |
| Validation.ExtraErrorIsUrl | mdto/classes.py:326-339 | the overrides only add malformed-URL errors, under their fixed paths |
| Validation.CheckFieldErrorShape | mdto/classes.py:55-91 | a field's error is its own rejection under its two-segment path or a nested error with that path prepended |
| Validation.WalksPairs | mdto/classes.py:83-91 | a chain of nested fields is a run of (class, field) pairs |
| Validation.PairsEven | mdto/classes.py:83-91 | every nesting level adds exactly two path segments |
| Validation.ZeroOmvangRejected | mdto/classes.py:53-58 | a `Bestand` of size 0 is rejected: `omvang` is mandatory and 0 is falsy |
| Validation.RaadpleeglocatieUrlCheck | mdto/classes.py:326-339 | the structural check runs first; after it, a malformed online location fails under the fixed path, and an accepted or absent one passes |
| Validation.MisnestedTermijnRejected | tests/test_custom_validate.py:7-20 | the misnested term is rejected two levels down with a type mismatch |
| Validation.MisnestedBewaartermijnReported | tests/test_custom_validate.py:7-20 | in an information object, the misnested term is reported under a six-segment path with the message unchanged |
| Validation.BewaartermijnFieldError | mdto/classes.py:83-91 | an error inside `bewaartermijn` is reported with `Informatieobject.bewaartermijn` prepended |
| Validation.NestedFieldError | mdto/classes.py:83-91 | a nested data group's error is prefixed with the class and field that hold it |
| Validation.WellTypedListPasses | mdto/classes.py:61-78 | a non-empty list of data groups of the declared kind passes where a list is allowed |
| Validation.NodeDescends | mdto/classes.py:83-85 | a data group of the declared kind that is not falsy is descended into |
| Validation.NestedUrlErrorPath | tests/test_custom_validate.py:23-33 | a malformed online location in an information object is reported under six segments: the generic prefix, then the fixed four |
| Validation.MalformedOnlineRejected | mdto/classes.py:326-339 | a location with only a malformed online address fails under the fixed four-segment path |
| Validation.ListItemsNotValidated | mdto/classes.py:68-78 | list items are only type-checked: a list holding an invalid concept passes |
| Validation.EmptyLabelRejected | mdto/classes.py:53-58 | a concept with an empty label fails on its label |
| Saving.Save | mdto/classes.py:438-470 | `save` validates first and writes the tree `to_xml` returns |
| Saving.SaveValidatesFirst | mdto/classes.py:465-470 | only a validated object is written; `save` succeeds exactly when validation passes and the object encodes |
| Saving.ValidatedObjectMayNotEncode | mdto/classes.py:465-470 | a valid object can still make `to_xml` raise: a concept whose label is a list of integers passes the field check |
| Saving.BadLabelPassesFieldCheck | mdto/classes.py:68-78 | such a `classificatie` passes the check of its field |
| Saving.BadLabelNotEncodable | mdto/classes.py:137-145 | and cannot be encoded |
| Setters.PostInit | mdto/mdto.py:327-333 | `__post_init__` raises exactly when `naam` has no length and warns exactly for a string or list longer than 80 |
| Setters.OnlineSetterCases | mdto/mdto.py:262-278 | the `raadpleeglocatieOnline` setter stores `None` for a missing or `None` argument, a list exactly when all items are accepted URLs (the empty list too), a string exactly when it is one; it rejects everything else and stores the argument itself |
| Setters.OnlineSetterAgreesWithValidator | mdto/mdto.py:262-278 | on strings, lists and `None` the setter accepts exactly what the current `validate_url_or_urls` accepts |
| Setters.UrlBestandSetterCases | mdto/mdto.py:576-590 | the `URLBestand` setter stores `None` or an accepted URL string and rejects everything else, lists included |
| Setters.PostInitNeverRaisesOnString | mdto/mdto.py:327-333 | construction never raises for a string `naam`; it only warns past 80 characters |
| Legacy.PropertySlot | mdto/mdto.py:258-278 | the property field, when a kind has one, is a declared field |
| Legacy.Record.constructor | mdto/mdto.py:244-278 | the generated `__init__` assigns the plain fields; the property field holds `None` until its setter runs |
| Legacy.Record.SetRaadpleeglocatieOnline | mdto/mdto.py:262-278 | the setter stores what it accepts in that one field; on rejection it raises and the instance is unchanged |
| Legacy.Record.SetUrlBestand | mdto/mdto.py:576-590 | the same for `URLBestand` |
| Legacy.Record.Set | mdto/mdto.py:258-278 | assigning a field changes that field only; a property field goes through its setter |
| Legacy.Build | mdto/mdto.py:314-333 | `Cls(**args)` builds the record the decoder's constructor describes, or fails with its error |
| Legacy.StoredCases | mdto/mdto.py:262-278 | a plain field stores anything; only the two URL fields can reject, and a rejected value is the one reported |
| Legacy.ReplaceCopiesNoS | mdto/mdto.py:810 | `replace` copies a prefix without "S" unchanged |
| Legacy.EveryShaNumberedSuffix | mdto/mdto.py:810 | a suffix of a label whose every "SHA" is numbered has the same property |
| Legacy.ReplaceAgreesWithDash | mdto/mdto.py:810 | where every "SHA" is followed by a digit, `replace` and the current regular expression give the same label |
| Legacy.LegacyChecksumLabelCases | mdto/mdto.py:810 | the older label agrees with the current one on names like "sha256" but is not idempotent: "SHA-256" becomes "SHA--256" |
| Legacy.LegacyLabelExamples | mdto/mdto.py:810 | "sha256" is labelled "SHA-256", and "SHA-256" is labelled "SHA--256" |
| Legacy.IndexOfPrefix | mdto/mdto.py:648-663 | the first separator of a prefix that contains it is the first separator of the whole output |
| Legacy.HeadOfPrefix | mdto/mdto.py:648-663 | a prefix reaching the first separator has the same first piece |
| Legacy.FirstLineUnstripped | mdto/mdto.py:648-663 | stripping trailing white space does not change a first line that does not end in white space |
| Legacy.LegacyFidoAgrees | mdto/mdto.py:632-665 | with fido installed and a first line not ending in white space, the older and the current fido reader accept the same outputs and read the same format |
| Legacy.LegacyFidoCases | mdto/mdto.py:616-665 | the older reader fails when fido is missing or exits non-zero; otherwise it fails exactly when the output does not start with "OK" or the first line has fewer than three fields |
| Legacy.LegacySave | mdto/mdto.py:374-398 | the older `save` writes the tree of the older encoder, without validating |
| Legacy.LegacySaveSkipsValidation | mdto/mdto.py:374-398 | an object without identification is refused by the current `save` but written by the older one whenever it encodes |
| Utilities.Upper | mdto/utilities.py:316 | the model's ASCII upper-casing maps each character on its own: the result has the input's length and each character is the upper case of the one at its position |
| Utilities.Rstrip | mdto/utilities.py:44-46 | `rstrip` returns a prefix that ends in no white space, having dropped only white space |
| Utilities.RstripKeeps | mdto/utilities.py:44-46 | everything up to the last non-space character is kept |
| Utilities.IndexOf | mdto/utilities.py:44-59 | the first occurrence of a character |
| Utilities.Split | mdto/utilities.py:44-59 | `split` returns at least one piece, and no piece holds the separator |
| Utilities.SplitJoin | mdto/utilities.py:44-59 | joining the pieces of a split gives the string back |
| Utilities.SplitHead | mdto/utilities.py:44-59 | the first piece is the text before the first separator, and the second follows it |
| Utilities.FirstPiece | mdto/utilities.py:44-59 | the first piece is a prefix; with no separator the split is the whole string |
| Utilities.DigitRun | mdto/utilities.py:316 | the run of digits `\d+` matches: all digits, ended by a non-digit or the end |
| Utilities.DashCopiesNoS | mdto/utilities.py:316 | the rewrite copies a prefix without "S" unchanged |
| Utilities.DashHead | mdto/utilities.py:316 | the first character survives the rewrite |
| Utilities.DashStep | mdto/utilities.py:316 | where no match starts, the first character is copied and the scan moves on by one |
| Utilities.DashIdempotent | mdto/utilities.py:316 | `re.sub(r"SHA(\d+)", r"SHA-\1", …)` applied twice gives what it gives once |
| Utilities.MatchRewrittenOnce | mdto/utilities.py:316 | the step of idempotence at a match |
| Utilities.CopyRewrittenOnce | mdto/utilities.py:316 | the step of idempotence where a character is copied |
| Utilities.DashedMatchKept | mdto/utilities.py:316 | a rewritten "SHA-" is not matched again |
| Utilities.NoMatchCreated | mdto/utilities.py:316 | copying a character cannot create a match in front of the rewritten rest |
| Utilities.DashKeepsUpper | mdto/utilities.py:316 | the rewrite keeps an upper-case string upper case |
| Utilities.ChecksumLabelIdempotent | mdto/utilities.py:316 | the checksum label is upper case, and normalising it again changes nothing |
| Utilities.ChecksumLabelExamples | mdto/utilities.py:316 | "sha256" becomes "SHA-256" and "md5" only "MD5" |
| Utilities.SelectBackendCases | mdto/utilities.py:126-171 | not a file: `TypeError`; an unknown `PRONOM_BACKEND`: `ValueError`; siegfried by default when installed, fido as fallback or when chosen; a backend only when its program is installed |
| Utilities.FidoResultCases | mdto/utilities.py:18-61 | fido's answer is read exactly when it exits 0 and prints an "OK" line with at least three fields; label and code are the second and third fields |
| Utilities.FirstLineFieldsShape | mdto/utilities.py:44-59 | the fields read are as printed: the first starts with "OK", the three start the output, none holds a comma or a line break |
| RoundTrip.ReadBackText | mdto/utilities.py:358-359 | the text lxml reads back is `None` exactly for a text that was absent or empty, and the text itself otherwise |
| RoundTrip.Qualify | mdto/classes.py:391-428 | the tree the parser returns has every tag in the MDTO namespace, each text as read back, and otherwise the same shape |
| RoundTrip.Span | mdto/utilities.py:391-398 | consecutive positions from `a` |
| RoundTrip.ItemElementTag | mdto/classes.py:140-148 | an item's element is named after its field |
| RoundTrip.OffsetGrows | mdto/classes.py:121-125 | each field's elements come before the next field's in the output |
| RoundTrip.SlotElements | mdto/classes.py:128-152 | a field value contributes one element per item, each the item's own element |
| RoundTrip.LaidOutItem | mdto/classes.py:121-152 | the `t`-th element of a field is the element of its `t`-th item |
| RoundTrip.FieldsLayout | mdto/classes.py:121-125 | the encoder lays out the fields one after the other, each at its offset |
| RoundTrip.LayoutExtends | mdto/classes.py:121-125 | appending the next field keeps earlier fields in place |
| RoundTrip.OffsetCovers | mdto/classes.py:121-125 | every child of an encoded instance belongs to some field |
| RoundTrip.PositionsOfRun | mdto/utilities.py:391-398 | a run of children naming one field adds its positions to that field only |
| RoundTrip.PositionsLayout | mdto/utilities.py:391-398 | in a laid-out instance with distinct names, the children naming a field are exactly its own elements |
| RoundTrip.PositionsNextRun | mdto/utilities.py:391-398 | a field's children extend another field's positions only when it is the same field |
| RoundTrip.ParseAtSpan | mdto/utilities.py:391-398 | parsing consecutive children that each parse gives their values |
| RoundTrip.ParseAtSpanPrefix | mdto/utilities.py:391-398 | the same for each prefix of the run |
| RoundTrip.NormalizedItems | mdto/utilities.py:401-407 | an item list as the decoder returns it, one per item |
| RoundTrip.CollapseNormalizes | mdto/utilities.py:401-407 | collapsing the decoded items of a value gives the normalised value |
| RoundTrip.ItemRoundTrip | mdto/utilities.py:358-378 | an item written under `name` is read back, by its declared type's parser, as the decoder normalises it |
| RoundTrip.GroupRoundTrip | mdto/utilities.py:381-409 | a data group with a parser table is read back by its group parser |
| RoundTrip.IdentificatieRoundTrip | mdto/utilities.py:364-368 | an identification reads back as written |
| RoundTrip.VerwijzingRoundTrip | mdto/utilities.py:371-378 | a reference reads back as written, with its identification when it has one |
| RoundTrip.EntityRoundTrip | mdto/utilities.py:381-409 | a data group written under `name` decodes to the normalised instance |
| RoundTrip.EncodedEntityDecodes | mdto/utilities.py:381-409 | once every item reads back, the whole encoded instance does |
| RoundTrip.ElementsReadBack | mdto/utilities.py:391-398 | a field's qualified elements name it and parse to its items |
| RoundTrip.ElementsNamed | mdto/utilities.py:392-394 | a field's qualified elements name that field |
| RoundTrip.ElementsParsed | mdto/utilities.py:396-398 | a field's qualified elements parse to its items as the decoder returns them |
| RoundTrip.ItemParsed | mdto/utilities.py:396-398 | the element of one item parses to that item as the decoder returns it |
| RoundTrip.QualifiedField | mdto/utilities.py:392-394 | a qualified element names the field its unqualified tag names |
| RoundTrip.DecodeLaidOut | mdto/utilities.py:381-409 | decoding children laid out by the encoder, each of which reads back, gives the normalised instance |
| RoundTrip.DecodedRuns | mdto/utilities.py:381-409 | when every child gets through and each field's children parse to its items, the decoded instance is the normalised one |
| RoundTrip.LaidOutChildrenOk | mdto/utilities.py:391-398 | every child of a laid-out instance gets through the decoding loop |
| RoundTrip.ChildInRunOk | mdto/utilities.py:396-398 | a child in a field's run gets through the loop |
| RoundTrip.LaidOutRuns | mdto/utilities.py:389-398 | in a laid-out instance, each field's children parse to its items |
| RoundTrip.FieldRun | mdto/utilities.py:389-398 | the children naming the field at a wire position parse to its items |
| RoundTrip.NameAtOnePosition | mdto/classes.py:93-103 | with distinct names, only one wire position carries a given field's name |
| RoundTrip.RunParses | mdto/utilities.py:391-398 | a field's run parses to its normalised items |
| RoundTrip.ObjectRoundTrip | tests/test_mdto_voorbeelden.py:7-30 | `from_xml` of the document `to_xml` writes returns the object with empty strings read as `None`, empty lists dropped and one-item lists unwrapped |
| RoundTrip.NormalizePlainEntity | mdto/utilities.py:401-407 | normalising changes nothing in an instance without empty strings and without empty or one-item lists |
| RoundTrip.NormalizePlainValue | mdto/utilities.py:401-407 | the same for a field value |
| RoundTrip.PlainObjectRoundTrip | tests/test_mdto_voorbeelden.py:76-97 | decode ∘ encode is the identity on objects with no empty string and no empty or one-item list |
| RoundTrip.ShortListsComeBackChanged | mdto/utilities.py:401-407 | the identity fails otherwise: an empty list comes back as `None`, a one-item list of a non-empty string as the string, an empty string as `None` |
| Reencoding.EntityReencodes | mdto/classes.py:105-152 | an instance without empty strings and its normalised form are written alike |
| Reencoding.FieldsReencode | mdto/classes.py:121-125 | the same for the fields loop |
| Reencoding.SlotReencodes | mdto/classes.py:128-152 | the same for one field |
| Reencoding.ValueReencodes | mdto/classes.py:134-145 | an empty list writes nothing, as `None` does; a one-item list writes its item's element |
| Reencoding.ItemsReencode | mdto/classes.py:137-145 | normalising the items of a longer list does not change its elements |
| Reencoding.ItemReencodes | mdto/classes.py:140-148 | normalising an item does not change its element |
| Reencoding.CallReencodes | mdto/classes.py:146-148 | normalising a data group does not change its `to_xml` |
| Reencoding.ObjectReencodes | mdto/classes.py:391-428 | an object and its normalised form give the same `<MDTO>` tree |
| Reencoding.SerializationChain | tests/test_mdto_voorbeelden.py:7-30 | the document written for an object without empty strings decodes, and encoding the decoded object gives that document again |
| Reencoding.EmptyStringNotRewritten | mdto/classes.py:149-152 | the chain needs non-empty strings: `""` is written as an empty element, read back as `None`, and `None` writes nothing |

## Findings

| source | as written | input that shows it | evidently intended | confidence | as-written member | corrected member |
|---|---|---|---|---|---|---|
| mdto/mdto.py:810 | `algorithm.upper().replace("SHA", "SHA-")` dashes every "SHA", including one already dashed | algorithm "SHA-256" gives "SHA--256" | a label that is normalised only once, as `re.sub(r"SHA(\d+)", …)` at mdto/utilities.py:316 does | high (not executed) | Legacy.LegacyChecksumLabelCases | Utilities.ChecksumLabelIdempotent |

## Left out

- File and stream I/O are outside the model. This covers `process_file`, `ET.parse` and `xml.write` with their lxml options, the XML declaration and `ET.indent`. Documents are element trees.
- The `nsmap`, the `xsi:schemaLocation` attribute of `<MDTO>` and namespace handling beyond the single MDTO namespace are left out.
- `to_bytes` and `to_string` (mdto/classes.py:472-506) only serialise the tree to bytes or text.
- `validators.url` is a parameter `isUrl`. Its RFC 3986 grammar is not modelled.
- `create_checksum` (mdto/utilities.py:285-326) is modelled by its label only. Hashing the file (`hashlib`) and the timestamp (`datetime`) are left out.
- `pronominfo` gets the results of `os.path.isfile`, `shutil.which` and `os.environ` as parameters.
- The siegfried backend (`_pronominfo_siegfried`) is left out: it parses JSON from a subprocess. The fido subprocess is represented by its return code and standard output, and fido's warning on standard error is left out.
- `_detect_verwijzing` and `bestand_from_file` are left out. They read files and call the checksum and PRONOM helpers on them.
- `mdto/gegevensgroepen.py` is left out. It re-exports the classes.
- `logging` is replaced by values. `Validation.Logged` is the list of warnings `validate` logs, whether it returns or raises; on success `Validation.Validate` returns the same list. `Setters.PostInit` returns a flag for its warning.
- Type-hint reflection (`get_origin`, `get_args`, `isinstance` against a `Union`) is replaced by each field's declared element type and cardinality.
  - `beperkingGebruikDocumentatie` is annotated with a lowercase `list[...]` (mdto/classes.py:264). Whether the validator recognises that annotation as a union with a list depends on the Python version. The model treats the field as repeatable.
- Utilities.Upper: only ASCII letters are upper-cased. Python's full Unicode case mapping, which can also change the length (`"ß".upper() == "SS"`), is not modelled.
- Utilities.DigitRun: only the ASCII digits 0-9 count as digits. Python's `\d` also matches every other Unicode decimal digit, so `"sha٢٥٦"` becomes `"SHA-٢٥٦"` in Python and stays `"SHA٢٥٦"` in the model. The same holds for `Utilities.DashSha` and `Xml.IsDigit`.
- Xml.ParseDecimal: `int()` also accepts surrounding white space and digit-group underscores. The model accepts only an optional sign followed by ASCII digits.
- RoundTrip.ObjectRoundTrip: the round trip is proved for the current module only, for objects whose values have their declared types (`WireEntity`) and that the encoder accepts (`Encodable`). Other objects make `to_xml` raise or write elements the parsers read differently.
- Reencoding.SerializationChain: the chain is proved only for objects without empty strings (`RoundTrip.FilledEntity`). For the others it does not hold (`Reencoding.EmptyStringNotRewritten`).
- Encoding.EntityOkIff: lxml's check of tag names is left out, because the encoder only uses the fixed field names. Integers are not checked, because `str(i)` is always XML text (`Xml.IntTextIsXml`).
- Decoding.LegacyConstruct: only the older classes' setters and `__post_init__` are modelled. The older `from_xml` (mdto/mdto.py:823-1030) uses the same parser tables as the current one. It is therefore modelled as the same decoding engine, called with the older classes.
- Validation.StrRepr: characters above U+00FF that Python's `repr` deems non-printable (written `\uXXXX` or `\UXXXXXXXX`) are copied unchanged. Up to U+00FF the escapes are modelled.
- Validation.ItemRepr: a data group inside a list is shown by its class name only; the data class's generated `repr` with all its fields is not modelled. `validate` never quotes a data group in an error (`Validation.UrlErrorQuotesText`).
- Tuples and sets, which the validator and the encoder accept wherever a list is (mdto/classes.py:67, 137), are represented by `List`. A tuple behaves as a list, except that the URL message would show it between parentheses; a set's iteration order, which fixes the order of its elements in the XML, and its braces in that message are not modelled.
- Validation.DistinctTypeNames: the message joins a Python `set` of type names, whose iteration order is unspecified. The model lists each name once, in order of first occurrence.
- The `conftest.py` fixtures that download the example documents, and the XSD validation tests, are left out: they need the network and an XML schema validator.
