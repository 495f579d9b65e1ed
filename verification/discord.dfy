/** The JSON body of a Discord webhook message: the `content` string and,
    when an embed is given, one embed object whose optional parts appear
    exactly when they are given. Posting the body is not modelled. */
module Discord {
  import opened Wrappers
  import opened JsonValue

  datatype EmbedField = EmbedField(name: string, value: string, inline: bool)
  datatype EmbedFooter = EmbedFooter(text: string, iconUrl: Option<string>)
  datatype EmbedImage = EmbedImage(url: string)
  datatype EmbedThumbnail = EmbedThumbnail(url: string)

  datatype DiscordEmbed = DiscordEmbed(
    title: string,
    description: string,
    fields: Option<seq<EmbedField>>,
    footer: Option<EmbedFooter>,
    image: Option<EmbedImage>,
    thumbnail: Option<EmbedThumbnail>)
  {
    /** A title and description with `..Default::default()`: every optional part absent. */
    static function Default(title: string, description: string): (e: DiscordEmbed)
      ensures e.title == title && e.description == description
      ensures e.fields.None? && e.footer.None? && e.image.None? && e.thumbnail.None?
    {
      DiscordEmbed(title, description, None, None, None, None)
    }
  }

  /** Green, `0x00ff00`. */
  const EmbedColor: int := 0x00ff00

  /** Every key an embed object may carry. */
  const EmbedKeys: set<string> := {"title", "description", "color", "fields", "footer", "image", "thumbnail"}

  /** One `{name, value, inline}` object. */
  function FieldJson(f: EmbedField): Json {
    Obj(map["name" := Str(f.name), "value" := Str(f.value), "inline" := Bool(f.inline)])
  }

  /** The `fields` list: one object per field, in order. */
  function FieldsJson(fs: seq<EmbedField>): (r: seq<Json>)
    ensures |r| == |fs|
    ensures forall i :: 0 <= i < |fs| ==> DecodeField(r[i]) == Some(fs[i])
  {
    seq(|fs|, i requires 0 <= i < |fs| => FieldJson(fs[i]))
  }

  /** Reading a field object back. */
  function DecodeField(j: Json): Option<EmbedField> {
    match (AsStr(Get(j, "name")), AsStr(Get(j, "value")), AsBool(Get(j, "inline")))
    case (Some(n), Some(v), Some(b)) => Some(EmbedField(n, v, b))
    case _ => None
  }

  function DecodeFields(items: seq<Json>): Option<seq<EmbedField>> {
    if items == [] then Some([])
    else
      match (DecodeField(items[0]), DecodeFields(items[1..]))
      case (Some(f), Some(rest)) => Some([f] + rest)
      case _ => None
  }

  /** The field list decodes back to the fields it was built from. */
  lemma {:induction false} DecodeFieldsJson(fs: seq<EmbedField>)
    ensures DecodeFields(FieldsJson(fs)) == Some(fs)
  {
    if fs != [] {
      DecodeFieldsJson(fs[1..]);
      assert FieldsJson(fs)[1..] == FieldsJson(fs[1..]);
      assert fs == [fs[0]] + fs[1..];
    }
  }

  /** Reading the optional `url` object of `image` or `thumbnail`. */
  function DecodeUrl(j: Json): Option<string> {
    AsStr(Get(j, "url"))
  }

  function DecodeFooter(j: Json): Option<EmbedFooter> {
    match AsStr(Get(j, "text"))
    case Some(t) => Some(EmbedFooter(t, AsStr(Get(j, "icon_url"))))
    case None => None
  }

  /** The optional parts of an embed object; an absent key is an absent part. */
  function DecodeEmbedFields(j: Json): Option<seq<EmbedField>> {
    match AsArray(Get(j, "fields"))
    case Some(items) => DecodeFields(items)
    case None => None
  }

  function DecodeEmbedFooter(j: Json): Option<EmbedFooter> {
    DecodeFooter(Get(j, "footer"))
  }

  function DecodeEmbedImage(j: Json): Option<EmbedImage> {
    match DecodeUrl(Get(j, "image"))
    case Some(u) => Some(EmbedImage(u))
    case None => None
  }

  function DecodeEmbedThumbnail(j: Json): Option<EmbedThumbnail> {
    match DecodeUrl(Get(j, "thumbnail"))
    case Some(u) => Some(EmbedThumbnail(u))
    case None => None
  }

  /** Reading a whole embed object back. */
  function DecodeEmbed(j: Json): Option<DiscordEmbed> {
    match (AsStr(Get(j, "title")), AsStr(Get(j, "description")))
    case (Some(t), Some(d)) =>
      Some(DiscordEmbed(t, d, DecodeEmbedFields(j), DecodeEmbedFooter(j), DecodeEmbedImage(j), DecodeEmbedThumbnail(j)))
    case _ => None
  }

  /** An object holding the parts of `embed` under their keys decodes to `embed`. */
  lemma DecodeEmbedParts(j: Json, embed: DiscordEmbed, fields: Json, footer: Json, image: Json, thumbnail: Json)
    requires Get(j, "title") == Str(embed.title) && Get(j, "description") == Str(embed.description)
    requires Get(j, "fields") == fields && Get(j, "footer") == footer
    requires Get(j, "image") == image && Get(j, "thumbnail") == thumbnail
    requires fields == (if embed.fields.Some? then Arr(FieldsJson(embed.fields.value)) else Null)
    requires embed.footer.Some? ==> DecodeFooter(footer) == embed.footer
    requires embed.footer.None? ==> footer == Null
    requires image == (if embed.image.Some? then UrlObject(embed.image.value.url) else Null)
    requires thumbnail == (if embed.thumbnail.Some? then UrlObject(embed.thumbnail.value.url) else Null)
    ensures DecodeEmbed(j) == Some(embed)
  {
    if embed.fields.Some? {
      DecodeFieldsJson(embed.fields.value);
    }
  }

  /** `if let Some(x) = part { object[key] = x }` on the object's map. */
  function With(m: map<string, Json>, key: string, part: Option<Json>): map<string, Json> {
    if part.Some? then m[key := part.value] else m
  }

  /** The `footer` object: `text`, and `icon_url` when there is one. */
  function FooterObject(footer: EmbedFooter): map<string, Json> {
    With(map["text" := Str(footer.text)], "icon_url",
      if footer.iconUrl.Some? then Some(Str(footer.iconUrl.value)) else None)
  }

  function UrlObject(url: string): Json {
    Obj(map["url" := Str(url)])
  }

  /** The embed object: the three fixed keys, then each optional part that is given. */
  function EmbedObject(embed: DiscordEmbed): map<string, Json> {
    var base := map["title" := Str(embed.title), "description" := Str(embed.description), "color" := Num(EmbedColor)];
    var withFields := With(base, "fields",
      if embed.fields.Some? then Some(Arr(FieldsJson(embed.fields.value))) else None);
    var withFooter := With(withFields, "footer",
      if embed.footer.Some? then Some(Obj(FooterObject(embed.footer.value))) else None);
    var withImage := With(withFooter, "image",
      if embed.image.Some? then Some(UrlObject(embed.image.value.url)) else None);
    With(withImage, "thumbnail",
      if embed.thumbnail.Some? then Some(UrlObject(embed.thumbnail.value.url)) else None)
  }

  /** The footer object has `text` always and `icon_url` exactly when one is
      given, and reads back as the footer. */
  lemma FooterObjectShape(footer: EmbedFooter)
    ensures FooterObject(footer).Keys == {"text"} + (if footer.iconUrl.Some? then {"icon_url"} else {})
    ensures DecodeFooter(Obj(FooterObject(footer))) == Some(footer)
  {
  }

  /** The fixed keys of the embed object, and the colour. */
  lemma EmbedObjectFixedKeys(embed: DiscordEmbed)
    ensures var m := EmbedObject(embed);
      && m.Keys <= EmbedKeys
      && "title" in m && "description" in m
      && m["color"] == Num(EmbedColor)
  {
  }

  /** Each optional key is present exactly when its part is given; `image` and
      `thumbnail` hold only a `url`. */
  lemma EmbedObjectOptionalKeys(embed: DiscordEmbed)
    ensures var m := EmbedObject(embed);
      && ("fields" in m <==> embed.fields.Some?)
      && ("footer" in m <==> embed.footer.Some?)
      && ("image" in m <==> embed.image.Some?)
      && ("thumbnail" in m <==> embed.thumbnail.Some?)
      && (embed.image.Some? ==> m["image"] == UrlObject(embed.image.value.url))
      && (embed.thumbnail.Some? ==> m["thumbnail"] == UrlObject(embed.thumbnail.value.url))
  {
  }

  /** The embed object reads back as the embed it was built from: nothing
      given is lost and nothing absent appears. */
  lemma EmbedObjectRoundTrip(embed: DiscordEmbed)
    ensures DecodeEmbed(Obj(EmbedObject(embed))) == Some(embed)
  {
    var m := EmbedObject(embed);
    EmbedObjectOptionalKeys(embed);
    var fields := if embed.fields.Some? then Arr(FieldsJson(embed.fields.value)) else Null;
    var footer := if embed.footer.Some? then Obj(FooterObject(embed.footer.value)) else Null;
    var image := if embed.image.Some? then UrlObject(embed.image.value.url) else Null;
    var thumbnail := if embed.thumbnail.Some? then UrlObject(embed.thumbnail.value.url) else Null;
    assert Get(Obj(m), "fields") == fields;
    assert Get(Obj(m), "footer") == footer;
    if embed.footer.Some? {
      FooterObjectShape(embed.footer.value);
    }
    DecodeEmbedParts(Obj(m), embed, fields, footer, image, thumbnail);
  }

  /** The `footer` object, with `icon_url` added when there is one. */
  method FooterJson(footer: EmbedFooter) returns (j: Json)
    ensures j == Obj(FooterObject(footer))
  {
    j := Obj(map["text" := Str(footer.text)]);
    if footer.iconUrl.Some? {
      j := Set(j, "icon_url", Str(footer.iconUrl.value));
    }
  }

  /** The embed object, built key by key. */
  method EmbedJson(embed: DiscordEmbed) returns (j: Json)
    ensures j == Obj(EmbedObject(embed))
  {
    j := Obj(map["title" := Str(embed.title), "description" := Str(embed.description), "color" := Num(EmbedColor)]);
    if embed.fields.Some? {
      j := Set(j, "fields", Arr(FieldsJson(embed.fields.value)));
    }
    if embed.footer.Some? {
      var footerJson := FooterJson(embed.footer.value);
      j := Set(j, "footer", footerJson);
    }
    if embed.image.Some? {
      j := Set(j, "image", Obj(map["url" := Str(embed.image.value.url)]));
    }
    if embed.thumbnail.Some? {
      j := Set(j, "thumbnail", Obj(map["url" := Str(embed.thumbnail.value.url)]));
    }
  }

  /** The whole body: `content`, and the one-element `embeds` array when an
      embed is given. */
  function PayloadObject(content: string, embed: Option<DiscordEmbed>): map<string, Json> {
    With(map["content" := Str(content)], "embeds",
      if embed.Some? then Some(Arr([Obj(EmbedObject(embed.value))])) else None)
  }

  method Payload(content: string, embed: Option<DiscordEmbed>) returns (payload: Json)
    ensures payload == Obj(PayloadObject(content, embed))
    ensures payload.Obj?
    ensures Get(payload, "content") == Str(content)
    ensures payload.fields.Keys == {"content"} + (if embed.Some? then {"embeds"} else {})
    ensures embed.Some? ==>
      && Get(payload, "embeds").Arr? && |Get(payload, "embeds").items| == 1
      && Get(payload, "embeds").items[0] == Obj(EmbedObject(embed.value))
      && DecodeEmbed(Get(payload, "embeds").items[0]) == embed
  {
    payload := Obj(map["content" := Str(content)]);
    if embed.Some? {
      var embedJson := EmbedJson(embed.value);
      EmbedObjectRoundTrip(embed.value);
      payload := Set(payload, "embeds", Arr([embedJson]));
    }
  }
}
