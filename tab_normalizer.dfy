/**
 * The rule both remote providers use to turn a server's tab record into a
 * `Tab`: every field is `a || b || default` in JavaScript's sense, so a
 * falsy value (empty string, 0, false, null, missing) falls through to the
 * next spelling and finally to the default.
 */
module TabNormalizer {
  import opened Wrappers
  import opened Js
  import opened BrowserTypes
  import Strings

  /**
   * The default icon exactly as the source text spells it: the characters
   * U+00F0 U+0178 U+0152, which is how the UTF-8 bytes of a globe glyph
   * read when decoded as Windows-1252.
   */
  const DefaultIcon := "\U{00F0}\U{0178}\U{0152}"

  /** The text a field ends up holding: a string as itself, any other value as `String(v)`. */
  function AsText(v: JsValue): string
  {
    if v.Str? then v.s else ToJsString(v)
  }

  /**
   * `normalizeTab(rawTab)`. `None` stands for the TypeError thrown when the
   * record is `null` or `undefined`.
   */
  function NormalizeTab(raw: JsValue): Option<Tab>
  {
    if IsNullish(raw) then None
    else
      Some(Tab(
        AsText(Or(Or(Get(raw, "id"), Get(raw, "tabId")), Str(ToJsString(Or(Get(raw, "index"), Num(0)))))),
        AsText(Or(Get(raw, "title"), Str("Untitled"))),
        AsText(Or(Get(raw, "url"), Str("about:blank"))),
        AsText(Or(Or(Get(raw, "icon"), Get(raw, "favIconUrl")), Str(DefaultIcon))),
        Truthy(Or(Or(Get(raw, "isActive"), Get(raw, "active")), Bool(false))),
        Some(Truthy(Or(Or(Get(raw, "hasAudio"), Get(raw, "audible")), Bool(false)))),
        Some(Truthy(Or(Or(Get(raw, "isMuted"), Get(Get(raw, "mutedInfo"), "muted")), Bool(false))))))
  }

  /** `rawTabs.map(normalizeTab)`: `None` when the value is not an array or some element throws. */
  function NormalizeTabs(raw: JsValue): (r: Option<seq<Tab>>)
    ensures r.Some? ==> raw.Arr? && |r.value| == |raw.items|
  {
    if raw.Arr? && forall i :: 0 <= i < |raw.items| ==> NormalizeTab(raw.items[i]).Some? then
      Some(seq(|raw.items|, i requires 0 <= i < |raw.items| => NormalizeTab(raw.items[i]).value))
    else None
  }

  /** The record a server would send for a tab, using the primary spelling of every field. */
  function TabToJson(t: Tab): JsValue
  {
    Obj(map[
      "id" := Str(t.id), "title" := Str(t.title), "url" := Str(t.url), "icon" := Str(t.icon),
      "isActive" := Bool(t.isActive),
      "hasAudio" := Bool(t.hasAudio.GetOr(false)),
      "isMuted" := Bool(t.isMuted.GetOr(false))])
  }

  /** The array a server would send for a list of tabs. */
  function TabsToJson(tabs: seq<Tab>): (r: JsValue)
    ensures r.Arr? && |r.items| == |tabs|
    ensures forall i :: 0 <= i < |tabs| ==> r.items[i] == TabToJson(tabs[i])
  {
    Arr(seq(|tabs|, i requires 0 <= i < |tabs| => TabToJson(tabs[i])))
  }

  /** The first truthy string among the spellings, else the default. */
  function FirstText(a: JsValue, b: JsValue, default: string): string
  {
    if Truthy(a) then AsText(a) else if Truthy(b) then AsText(b) else default
  }

  /**
   * Field by field: the id is the first truthy of `id`, `tabId`, else the
   * decimal text of `index` (0 when falsy); title, url and icon fall back to
   * 'Untitled', 'about:blank' and the default icon; each flag is true exactly
   * when one of its two spellings is truthy, and the optional flags are always
   * present.
   */
  lemma NormalizeTabFields(raw: JsValue)
    requires !IsNullish(raw)
    ensures NormalizeTab(raw).Some?
    ensures var t := NormalizeTab(raw).value;
      var index := if Truthy(Get(raw, "index")) then ToJsString(Get(raw, "index")) else "0";
      && t.id == FirstText(Get(raw, "id"), Get(raw, "tabId"), index)
      && t.title == FirstText(Get(raw, "title"), Undefined, "Untitled")
      && t.url == FirstText(Get(raw, "url"), Undefined, "about:blank")
      && t.icon == FirstText(Get(raw, "icon"), Get(raw, "favIconUrl"), DefaultIcon)
      && (t.isActive <==> Truthy(Get(raw, "isActive")) || Truthy(Get(raw, "active")))
      && (t.hasAudio == Some(true) <==> Truthy(Get(raw, "hasAudio")) || Truthy(Get(raw, "audible")))
      && (t.isMuted == Some(true) <==> Truthy(Get(raw, "isMuted")) || Truthy(Get(Get(raw, "mutedInfo"), "muted")))
      && t.hasAudio.Some? && t.isMuted.Some?
  {
  }

  /** A record with no usable field normalises to the all-default tab. */
  lemma NormalizeEmptyRecord()
    ensures NormalizeTab(Obj(map[])) == Some(Tab("0", "Untitled", "about:blank", DefaultIcon, false, Some(false), Some(false)))
  {
    assert Strings.IntString(0) == "0";
  }

  /** `null`, `undefined` and `mutedInfo: { muted: false }` all fall through to the next source for `isMuted`. */
  lemma MutedInfoFallsThrough(raw: JsValue)
    requires raw.Obj? && ("isMuted" !in raw.fields || !Truthy(raw.fields["isMuted"]))
    ensures NormalizeTab(raw).Some?
    ensures NormalizeTab(raw).value.isMuted == Some(Truthy(Get(Get(raw, "mutedInfo"), "muted")))
  {
  }

  /** A tab written with non-empty strings and both optional flags is read back unchanged. */
  lemma NormalizeTabToJson(t: Tab)
    requires t.id != "" && t.title != "" && t.url != "" && t.icon != ""
    requires t.hasAudio.Some? && t.isMuted.Some?
    ensures NormalizeTab(TabToJson(t)) == Some(t)
  {
    var j := TabToJson(t);
    assert Get(j, "id") == Str(t.id) && Get(j, "title") == Str(t.title);
    assert Get(j, "url") == Str(t.url) && Get(j, "icon") == Str(t.icon);
    assert Get(j, "isActive") == Bool(t.isActive);
    assert Get(j, "hasAudio") == Bool(t.hasAudio.value);
    assert Get(j, "isMuted") == Bool(t.isMuted.value);
    assert "active" !in j.fields && "audible" !in j.fields && "mutedInfo" !in j.fields;
    NormalizePrimaryFields(j);
  }

  /** A record whose primary spellings are non-empty strings and booleans, with no alternative flag spelling, is read field for field. */
  lemma NormalizePrimaryFields(raw: JsValue)
    requires raw.Obj?
    requires Get(raw, "id").Str? && Get(raw, "id").s != "" && Get(raw, "title").Str? && Get(raw, "title").s != ""
    requires Get(raw, "url").Str? && Get(raw, "url").s != "" && Get(raw, "icon").Str? && Get(raw, "icon").s != ""
    requires Get(raw, "isActive").Bool? && Get(raw, "hasAudio").Bool? && Get(raw, "isMuted").Bool?
    requires Get(raw, "active") == Undefined && Get(raw, "audible") == Undefined && Get(raw, "mutedInfo") == Undefined
    ensures NormalizeTab(raw) == Some(Tab(Get(raw, "id").s, Get(raw, "title").s, Get(raw, "url").s, Get(raw, "icon").s,
      Get(raw, "isActive").b, Some(Get(raw, "hasAudio").b), Some(Get(raw, "isMuted").b)))
  {
  }

  /** `map` keeps length and order: the i-th result is the i-th record normalised; an array of objects never throws. */
  lemma NormalizeTabsSpec(raw: JsValue)
    ensures NormalizeTabs(raw).Some? <==>
      raw.Arr? && forall i :: 0 <= i < |raw.items| ==> !IsNullish(raw.items[i])
    ensures NormalizeTabs(raw).Some? ==>
      forall i :: 0 <= i < |raw.items| ==> NormalizeTabs(raw).value[i] == NormalizeTab(raw.items[i]).value
  {
  }

  /** Normalising the records of a list of tabs gives the list back. */
  lemma NormalizeTabsToJson(tabs: seq<Tab>)
    requires forall i :: 0 <= i < |tabs| ==>
      tabs[i].id != "" && tabs[i].title != "" && tabs[i].url != "" && tabs[i].icon != ""
      && tabs[i].hasAudio.Some? && tabs[i].isMuted.Some?
    ensures NormalizeTabs(TabsToJson(tabs)) == Some(tabs)
  {
    var raw := TabsToJson(tabs);
    forall i | 0 <= i < |tabs|
      ensures NormalizeTab(raw.items[i]) == Some(tabs[i])
    {
      NormalizeTabToJson(tabs[i]);
    }
    var r := NormalizeTabs(raw);
    assert r.Some? && |r.value| == |tabs|;
    forall i | 0 <= i < |tabs|
      ensures r.value[i] == tabs[i]
    {
      NormalizeTabsSpec(raw);
    }
    assert r.value == tabs;
  }
}
