/**
 * Builders for WhatsApp interactive list messages: the list envelope, and one
 * section of rows made from arbitrary items.
 */
module WhatsAppTemplates {
  import opened Json
  import opened Wrappers
  import Text

  /** An attribute's value as the row builder sees it: its `str()` form and its truthiness. */
  datatype Attr = Attr(str: string, truthy: bool)

  /**
   * An item handed to `build_sections_from_items`: a dict (keys to values) or
   * any other object (attribute names to values).
   */
  datatype Item =
    | Dict(fields: map<string, Attr>)
    | Object(fields: map<string, Attr>)

  /** `item.get(name, default)` for a dict, `getattr(item, name, default)` for an object, as a `str()`. */
  function Lookup(item: Item, name: string, default: string): string {
    if name in item.fields then item.fields[name].str else default
  }

  /** `{"type": "text", "text": header_text}`. */
  function Header(text: string): Json {
    JObject(map["type" := JStr("text"), "text" := JStr(text)])
  }

  /** `{"text": footer_text}`. */
  function Footer(text: string): Json {
    JObject(map["text" := JStr(text)])
  }

  /** Python truthiness of an optional string argument. */
  predicate Given(s: Option<string>) {
    s.Some? && s.value != []
  }

  /** The `interactive` block of a list message. */
  function ListInteractive(bodyText: string, buttonText: string, sections: seq<Json>,
                           headerText: Option<string>, footerText: Option<string>): map<string, Json>
  {
    var base := map[
      "type" := JStr("list"),
      "body" := JObject(map["text" := JStr(bodyText)]),
      "action" := JObject(map["button" := JStr(buttonText), "sections" := JList(sections)])
    ];
    var withHeader := if Given(headerText) then base["header" := Header(headerText.value)] else base;
    if Given(footerText) then withHeader["footer" := Footer(footerText.value)] else withHeader
  }

  /** `build_list_message(to, body_text, button_text, sections, header_text, footer_text)`. */
  function BuildListMessage(to: string, bodyText: string, buttonText: string, sections: seq<Json>,
                            headerText: Option<string>, footerText: Option<string>): (m: Json)
    ensures m.JObject? && m.fields.Keys == {"messaging_product", "to", "type", "interactive"}
    ensures m.fields["to"] == JStr(to) && m.fields["interactive"].JObject?
  {
    JObject(map[
      "messaging_product" := JStr("whatsapp"),
      "to" := JStr(to),
      "type" := JStr("interactive"),
      "interactive" := JObject(ListInteractive(bodyText, buttonText, sections, headerText, footerText))
    ])
  }

  /**
   * The list envelope: fixed product and type, the recipient; a `list` block with
   * the body, the button label and the sections exactly as passed; a header
   * exactly when a non-empty header text is given and a footer exactly when a
   * non-empty footer text is given, and no other keys.
   */
  lemma ListMessageShape(to: string, bodyText: string, buttonText: string, sections: seq<Json>,
                         headerText: Option<string>, footerText: Option<string>)
    ensures var m := BuildListMessage(to, bodyText, buttonText, sections, headerText, footerText).fields;
      && m.Keys == {"messaging_product", "to", "type", "interactive"}
      && m["messaging_product"] == JStr("whatsapp") && m["to"] == JStr(to) && m["type"] == JStr("interactive")
      && var i := m["interactive"].fields;
      && i["type"] == JStr("list")
      && i["body"] == JObject(map["text" := JStr(bodyText)])
      && i["action"] == JObject(map["button" := JStr(buttonText), "sections" := JList(sections)])
      && ("header" in i <==> Given(headerText))
      && (Given(headerText) ==> i["header"] == Header(headerText.value))
      && ("footer" in i <==> Given(footerText))
      && (Given(footerText) ==> i["footer"] == Footer(footerText.value))
      && i.Keys <= {"type", "body", "action", "header", "footer"}
  {
  }

  /**
   * The row made for `item` at 1-based position `idx`, with each attribute read
   * the way line 64 means to: `item.get(name, default)` for a dict and
   * `getattr(item, name, default)` for an object.
   */
  function RowFor(item: Item, idx: nat, idAttr: string, titleAttr: string, descriptionAttr: Option<string>): (row: Json)
    ensures row.JObject? && {"id", "title"} <= row.fields.Keys <= {"id", "title", "description"}
    ensures forall key | key in row.fields :: row.fields[key].JStr?
  {
    var base := map["id" := JStr(Lookup(item, idAttr, Text.NatToString(idx))),
                    "title" := JStr(Lookup(item, titleAttr, "Item " + Text.NatToString(idx)))];
    if Given(descriptionAttr) && descriptionAttr.value in item.fields && item.fields[descriptionAttr.value].truthy
    then JObject(base["description" := JStr(item.fields[descriptionAttr.value].str)])
    else JObject(base)
  }

  /**
   * A row's id is the item's id attribute or else its 1-based position in
   * decimal; its title is the title attribute or else "Item <position>"; it has a
   * description exactly when a description attribute name is given and the item's
   * value for it is truthy, and then it is that value's `str()`.
   */
  lemma RowDefaults(item: Item, idx: nat, idAttr: string, titleAttr: string, descriptionAttr: Option<string>)
    ensures var row := RowFor(item, idx, idAttr, titleAttr, descriptionAttr).fields;
      && row["id"] == JStr(if idAttr in item.fields then item.fields[idAttr].str else Text.NatToString(idx))
      && row["title"] == JStr(if titleAttr in item.fields then item.fields[titleAttr].str else "Item " + Text.NatToString(idx))
      && ("description" in row <==>
            Given(descriptionAttr) && descriptionAttr.value in item.fields && item.fields[descriptionAttr.value].truthy)
      && ("description" in row ==> row["description"] == JStr(item.fields[descriptionAttr.value].str))
      && row.Keys <= {"id", "title", "description"}
  {
  }

  /** A section `{"title": title, "rows": rows}`. */
  function Section(title: string, rows: seq<Json>): Json {
    JObject(map["title" := JStr(title), "rows" := JList(rows)])
  }

  /**
   * The sections `build_sections_from_items` means to build: exactly one,
   * titled as asked, with one row per item in input order, dicts and objects
   * alike.
   */
  function SectionsFromItems(items: seq<Item>, sectionTitle: string, idAttr: string, titleAttr: string,
                             descriptionAttr: Option<string>): (sections: seq<Json>)
    ensures |sections| == 1 && sections[0].JObject? && sections[0].fields.Keys == {"title", "rows"}
    ensures sections[0].fields["title"] == JStr(sectionTitle) && sections[0].fields["rows"].JList?
    ensures var rows := sections[0].fields["rows"].items;
      && |rows| == |items|
      && forall k | 0 <= k < |items| :: rows[k] == RowFor(items[k], k + 1, idAttr, titleAttr, descriptionAttr)
  {
    [Section(sectionTitle, seq(|items|, k requires 0 <= k < |items| => RowFor(items[k], k + 1, idAttr, titleAttr, descriptionAttr)))]
  }

  /**
   * `build_sections_from_items` as written. For a dict item line 64 picks the
   * bound method `item.get` and line 65 calls it as `item.get(item, id_attr, idx)`;
   * `dict.get` takes at most two arguments, so the call raises TypeError. The
   * result is therefore the intended sections when every item is an object, and
   * a raise as soon as one item is a dict.
   */
  method BuildSectionsFromItems(items: seq<Item>, sectionTitle: string, idAttr: string, titleAttr: string,
                                descriptionAttr: Option<string>)
    returns (sections: Py<seq<Json>>)
    ensures sections.Raised? <==> exists k | 0 <= k < |items| :: items[k].Dict?
    ensures sections.Value? ==> sections.v == SectionsFromItems(items, sectionTitle, idAttr, titleAttr, descriptionAttr)
  {
    var rows: seq<Json> := [];
    var i := 0;
    while i < |items|
      invariant 0 <= i <= |items| && |rows| == i
      invariant forall k | 0 <= k < i :: items[k].Object?
      invariant forall k | 0 <= k < i :: rows[k] == RowFor(items[k], k + 1, idAttr, titleAttr, descriptionAttr)
    {
      var idx := i + 1;
      var item := items[i];
      if item.Dict? {
        return Raised;
      }
      var row := map["id" := JStr(Lookup(item, idAttr, Text.NatToString(idx))),
                     "title" := JStr(Lookup(item, titleAttr, "Item " + Text.NatToString(idx)))];
      if Given(descriptionAttr) {
        if descriptionAttr.value in item.fields && item.fields[descriptionAttr.value].truthy {
          row := row["description" := JStr(item.fields[descriptionAttr.value].str)];
        }
      }
      rows := rows + [JObject(row)];
      i := i + 1;
    }
    ghost var intended := SectionsFromItems(items, sectionTitle, idAttr, titleAttr, descriptionAttr);
    assert rows == intended[0].fields["rows"].items;
    sections := Value([Section(sectionTitle, rows)]);
  }

  /**
   * `[{"id": "1", "title": "x"}]`: a one-dict input, on which the code as
   * written raises, gets the intended single row `{"id": "1", "title": "x"}`.
   */
  lemma DictItemExample()
    ensures var items := [Dict(map["id" := Attr("1", true), "title" := Attr("x", true)])];
      && (exists k | 0 <= k < |items| :: items[k].Dict?)
      && SectionsFromItems(items, "Opciones", "id", "title", None)
         == [Section("Opciones", [JObject(map["id" := JStr("1"), "title" := JStr("x")])])]
  {
    var items := [Dict(map["id" := Attr("1", true), "title" := Attr("x", true)])];
    assert items[0].Dict?;
    var sections := SectionsFromItems(items, "Opciones", "id", "title", None);
    assert sections[0].fields["rows"].items == [RowFor(items[0], 1, "id", "title", None)];
  }
}
