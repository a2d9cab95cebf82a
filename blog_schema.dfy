/**
 * The blog collection's schema: the entry record, the `status` property
 * whose `published` option depends on the entry's other values, the default
 * values, the tagged content blocks, and the extra column added to exports.
 */
module BlogSchema {
  import opened Common

  // ---------------------------------------------------------------------------
  // Content blocks

  /**
   * The `value` of a stored content entry, as the preview receives it: a
   * string, a list of references, or nothing.
   */
  datatype ContentValue = TextValue(text: string) | ReferencesValue(references: seq<EntityReference>) | NoValue

  /**
   * One element of the stored `content` array. `Falsy` stands for every
   * falsy element (`null`, `undefined`, `false`, `0`, `""`); any other element
   * is read as an object whose `type` field may be missing.
   */
  datatype ContentEntry = Falsy | Entry(typeTag: Option<string>, value: ContentValue)

  /** The three block kinds the schema declares under `oneOf`, keyed by `type` with the payload in `value`. */
  datatype ContentBlock =
    | ImageBlock(url: string)
    | TextBlock(markdown: string)
    | ProductsBlock(references: seq<EntityReference>)

  const ImageTag := "image"
  const TextTag := "text"
  const ProductsTag := "products"

  function BlockTag(b: ContentBlock): string
  {
    match b
    case ImageBlock(_) => ImageTag
    case TextBlock(_) => TextTag
    case ProductsBlock(_) => ProductsTag
  }

  /** How a declared block is stored: its kind in `type`, its payload in `value`. */
  function EncodeBlock(b: ContentBlock): (e: ContentEntry)
    ensures e.Entry? && e.typeTag == Some(BlockTag(b))
  {
    match b
    case ImageBlock(url) => Entry(Some(ImageTag), TextValue(url))
    case TextBlock(markdown) => Entry(Some(TextTag), TextValue(markdown))
    case ProductsBlock(refs) => Entry(Some(ProductsTag), ReferencesValue(refs))
  }

  /** Reads a stored entry back as a declared block; anything the schema cannot produce is `None`. */
  function DecodeBlock(e: ContentEntry): (r: Option<ContentBlock>)
    ensures r.Some? ==> e.Entry? && e.typeTag == Some(BlockTag(r.value))
  {
    match e
    case Falsy => None
    case Entry(tag, value) =>
      if tag == Some(ImageTag) && value.TextValue? then Some(ImageBlock(value.text))
      else if tag == Some(TextTag) && value.TextValue? then Some(TextBlock(value.text))
      else if tag == Some(ProductsTag) && value.ReferencesValue? then Some(ProductsBlock(value.references))
      else None
  }

  /** Encoding and decoding are inverse: every block survives storage, and every decodable entry is an encoded block. */
  lemma BlockRoundTrip(b: ContentBlock, e: ContentEntry)
    ensures DecodeBlock(EncodeBlock(b)) == Some(b)
    ensures DecodeBlock(e).Some? ==> EncodeBlock(DecodeBlock(e).value) == e
  {
  }

  // ---------------------------------------------------------------------------
  // The entry

  /** The values of a blog entry form; timestamps are kept as numbers. */
  datatype BlogEntry = BlogEntry(
    name: Option<string>,
    imageUrl: Option<string>,
    content: Option<seq<ContentEntry>>,
    createdAt: Option<int>,
    publishDate: Option<int>,
    status: Option<string>,
    tags: Option<seq<string>>
  )

  /** The fields the schema marks required. */
  predicate HasRequiredFields(b: BlogEntry)
  {
    b.name.Some? && b.status.Some? && b.content.Some?
  }

  // ---------------------------------------------------------------------------
  // The status property

  const Published := "published"
  const Draft := "draft"

  /** One entry of an `enumValues` table: its stored key, its label text, and whether it can be chosen. */
  datatype EnumOption = EnumOption(key: string, labelText: string, disabled: bool)

  /** `published` is offered only when `image_url` and `name` are both non-empty. */
  predicate CanPublish(values: BlogEntry)
  {
    Truthy(values.imageUrl) && Truthy(values.name)
  }

  /** The options of the `status` property, built from the entry's current values. */
  function StatusOptions(values: BlogEntry): (r: seq<EnumOption>)
    ensures |r| == 2 && r[0].key == Published && r[1].key == Draft
    ensures r[0].disabled <==> !CanPublish(values)
    ensures !r[1].disabled
  {
    [EnumOption(Published, "Published", !Truthy(values.imageUrl) || !Truthy(values.name)),
     EnumOption(Draft, "Draft", false)]
  }

  /** The status keys a user can pick for an entry with these values. */
  function SelectableStatuses(values: BlogEntry): set<string>
  {
    set o | o in StatusOptions(values) && !o.disabled :: o.key
  }

  /**
   * `draft` can always be picked, `published` exactly when the image and the
   * name are set, and no other value is ever offered.
   */
  lemma SelectableStatusesSpec(values: BlogEntry)
    ensures Draft in SelectableStatuses(values)
    ensures Published in SelectableStatuses(values) <==> CanPublish(values)
    ensures SelectableStatuses(values) <= {Published, Draft}
  {
    var opts := StatusOptions(values);
    assert opts[1] in opts;
    if CanPublish(values) {
      assert opts[0] in opts;
    }
  }

  /** An entry whose status is one of the offered options is only published when it has an image and a name. */
  lemma PublishedNeedsImageAndName(b: BlogEntry)
    requires b.status.Some? && b.status.value in SelectableStatuses(b)
    ensures b.status.value == Published ==> Truthy(b.imageUrl) && Truthy(b.name)
    ensures b.status.value in {Published, Draft}
  {
    SelectableStatusesSpec(b);
  }

  /** The values a new entry starts with: only `status`, set to `draft`. */
  const DefaultValues := BlogEntry(None, None, None, None, None, Some(Draft), None)

  /** A fresh entry holds only its status: the name and the content must still be filled in. */
  lemma DefaultValuesIncomplete()
    ensures DefaultValues.status.Some? && !HasRequiredFields(DefaultValues)
    ensures forall b: BlogEntry :: HasRequiredFields(b) ==> b.name != DefaultValues.name && b.content != DefaultValues.content
  {
  }

  /** The default status can be picked whatever else the entry holds, and a fresh entry cannot be published. */
  lemma DefaultStatusSelectable(values: BlogEntry)
    ensures DefaultValues.status == Some(Draft)
    ensures values.status == DefaultValues.status ==> values.status.value in SelectableStatuses(values)
    ensures Published !in SelectableStatuses(DefaultValues)
  {
    SelectableStatusesSpec(values);
    SelectableStatusesSpec(DefaultValues);
  }

  // ---------------------------------------------------------------------------
  // The export column

  const ExportValuePrefix := "Additional exported value "

  /** The `extra` column of an exported entity: a fixed text followed by the entity id. */
  function AdditionalExportValue(entityId: string): (r: string)
    ensures StartsWith(r, ExportValuePrefix)
    ensures r[|ExportValuePrefix|..] == entityId
  {
    ExportValuePrefix + entityId
  }

  /** Distinct entities export distinct values. */
  lemma AdditionalExportValueInjective(a: string, b: string)
    ensures AdditionalExportValue(a) == AdditionalExportValue(b) <==> a == b
  {
    if AdditionalExportValue(a) == AdditionalExportValue(b) {
      assert AdditionalExportValue(a)[|ExportValuePrefix|..] == AdditionalExportValue(b)[|ExportValuePrefix|..];
    }
  }
}
