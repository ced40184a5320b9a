/**
 * The self-contained logic of CmsADEManager: the initialisation status
 * machine, the JSON form of a container element, the favourite and recent
 * element lists kept in the user's additional info, the recent-list size
 * default, and the fallback rules of the configuration and detail-page
 * lookups. The configuration caches, the VFS and the JSON text parser are
 * foreign; they appear as abstract lookup functions and as already parsed
 * JSON values.
 */
module AdeManager {
  import opened Util

  // ---------------------------------------------------------------------
  // Initialisation status
  // ---------------------------------------------------------------------

  datatype Status = Initialized | Initializing | NotInitialized

  /**
   * How the set-up work inside initialize ends: normally, with a CmsException
   * (caught), or with any other exception (not caught, the status stays
   * `initializing`).
   */
  datatype SetupOutcome = Succeeds | FailsWithCmsException | FailsOtherwise

  /** The status after one call of initialize. */
  function InitStep(s: Status, outcome: SetupOutcome): Status {
    if s != NotInitialized then s
    else
      match outcome
      case Succeeds => Initialized
      case FailsWithCmsException => NotInitialized
      case FailsOtherwise => Initializing
  }

  /** The status after a series of calls of initialize, in order. */
  function RunInit(s: Status, attempts: seq<SetupOutcome>): Status
    decreases |attempts|
  {
    if attempts == [] then s else RunInit(InitStep(s, attempts[0]), attempts[1..])
  }

  /** Attempt k succeeds and every attempt before it failed with a CmsException. */
  predicate FirstSuccessAt(attempts: seq<SetupOutcome>, k: int) {
    && 0 <= k < |attempts|
    && attempts[k] == Succeeds
    && forall j :: 0 <= j < k ==> attempts[j] == FailsWithCmsException
  }

  predicate AllCmsFailures(attempts: seq<SetupOutcome>) {
    forall j :: 0 <= j < |attempts| ==> attempts[j] == FailsWithCmsException
  }

  /** Once initialized, further calls of initialize change nothing. */
  lemma {:induction false} InitializedIsStable(attempts: seq<SetupOutcome>)
    ensures RunInit(Initialized, attempts) == Initialized
    decreases |attempts|
  {
    if attempts != [] {
      InitializedIsStable(attempts[1..]);
    }
  }

  /** A set-up that failed with an unchecked exception leaves the manager `initializing` for good. */
  lemma {:induction false} InitializingIsStuck(attempts: seq<SetupOutcome>)
    ensures RunInit(Initializing, attempts) == Initializing
    decreases |attempts|
  {
    if attempts != [] {
      InitializingIsStuck(attempts[1..]);
    }
  }

  /**
   * Starting from `notInitialized`, the manager ends `initialized` exactly
   * when some attempt succeeds after nothing but CmsException failures, and
   * ends `notInitialized` exactly when every attempt failed with a
   * CmsException.
   */
  lemma {:induction false} RunInitFromStart(attempts: seq<SetupOutcome>)
    ensures RunInit(NotInitialized, attempts) == Initialized
            <==> exists k :: FirstSuccessAt(attempts, k)
    ensures RunInit(NotInitialized, attempts) == NotInitialized <==> AllCmsFailures(attempts)
    decreases |attempts|
  {
    if attempts == [] {
      return;
    }
    var rest := attempts[1..];
    match attempts[0]
    case Succeeds =>
      InitializedIsStable(rest);
      assert FirstSuccessAt(attempts, 0);
    case FailsOtherwise =>
      InitializingIsStuck(rest);
      forall k | 0 <= k < |attempts| && attempts[k] == Succeeds
        ensures !FirstSuccessAt(attempts, k)
      {
        assert attempts[0] != FailsWithCmsException;
      }
    case FailsWithCmsException =>
      RunInitFromStart(rest);
      if RunInit(NotInitialized, attempts) == Initialized {
        var k' :| FirstSuccessAt(rest, k');
        assert FirstSuccessAt(attempts, k' + 1) by {
          forall j | 0 <= j < k' + 1 ensures attempts[j] == FailsWithCmsException {
            if j > 0 {
              assert attempts[j] == rest[j - 1];
            }
          }
        }
      }
      if k :| FirstSuccessAt(attempts, k) {
        assert k > 0;
        assert FirstSuccessAt(rest, k - 1) by {
          forall j | 0 <= j < k - 1 ensures rest[j] == FailsWithCmsException {
            assert rest[j] == attempts[j + 1];
          }
        }
      }
      if AllCmsFailures(rest) {
        forall j | 0 <= j < |attempts| ensures attempts[j] == FailsWithCmsException {
          if j > 0 {
            assert attempts[j] == rest[j - 1];
          }
        }
      }
      if AllCmsFailures(attempts) {
        forall j | 0 <= j < |rest| ensures rest[j] == FailsWithCmsException {
          assert rest[j] == attempts[j + 1];
        }
      }
  }

  /** The part of CmsADEManager that changes state: its initialisation status. */
  class Manager {
    var initStatus: Status

    constructor ()
      ensures initStatus == NotInitialized
    {
      initStatus := NotInitialized;
    }

    /** initialize: acts only when not yet initialized. */
    method Initialize(outcome: SetupOutcome)
      modifies this
      ensures initStatus == InitStep(old(initStatus), outcome)
    {
      if initStatus == NotInitialized {
        initStatus := Initializing;
        match outcome
        case Succeeds =>
          initStatus := Initialized;
        case FailsWithCmsException =>
          initStatus := NotInitialized;
        case FailsOtherwise =>
      }
    }

    /** isInitialized. */
    function IsInitialized(): (r: bool)
      reads this
      ensures r <==> initStatus == Initialized
    {
      initStatus == Initialized
    }
  }

  // ---------------------------------------------------------------------
  // Structure ids (CmsUUID) by their text form
  // ---------------------------------------------------------------------

  predicate IsHexDigit(c: char) {
    '0' <= c <= '9' || 'a' <= c <= 'f' || 'A' <= c <= 'F'
  }

  predicate IsDashPosition(i: int) {
    i == 8 || i == 13 || i == 18 || i == 23
  }

  /** The 8-4-4-4-12 hexadecimal layout a UUID is read from. */
  predicate IsUuidText(s: string) {
    && |s| == 36
    && forall i :: 0 <= i < 36 ==> if IsDashPosition(i) then s[i] == '-' else IsHexDigit(s[i])
  }

  function LowerHex(c: char): char {
    if 'A' <= c <= 'F' then (c as int + 32) as char else c
  }

  function ToLowerHex(s: string): (r: string)
    ensures |r| == |s|
    ensures forall i :: 0 <= i < |s| ==> r[i] == LowerHex(s[i])
  {
    seq(|s|, i requires 0 <= i < |s| => LowerHex(s[i]))
  }

  /** A structure id, represented by the text its toString writes. */
  datatype Uuid = Uuid(text: string)

  /** The text form toString writes: the layout, in lower case. */
  predicate IsCanonical(u: Uuid) {
    IsUuidText(u.text) && forall i :: 0 <= i < |u.text| ==> !('A' <= u.text[i] <= 'F')
  }

  /** new CmsUUID(text): None stands for the NumberFormatException on malformed text. */
  function ParseUuid(s: string): (r: Option<Uuid>)
    ensures r.Some? <==> IsUuidText(s)
    ensures r.Some? ==> IsCanonical(r.value)
  {
    if IsUuidText(s) then Some(Uuid(ToLowerHex(s))) else None
  }

  /** Reading back the text of an id gives the same id. */
  lemma ParseUuidOfText(u: Uuid)
    requires IsCanonical(u)
    ensures ParseUuid(u.text) == Some(u)
  {
    assert ToLowerHex(u.text) == u.text;
  }

  // ---------------------------------------------------------------------
  // Container elements and their JSON form
  // ---------------------------------------------------------------------

  /** A JSON value: a string, an object (string-keyed), or anything else. */
  datatype Json = JString(str: string) | JObject(fields: map<string, Json>) | JOther

  /** CmsContainerElementBean as far as the lists store it. */
  datatype Element = Element(id: Uuid, formatterId: Option<Uuid>, settings: map<string, string>)

  /** A bean built from real structure ids. */
  predicate ValidElement(e: Element) {
    IsCanonical(e.id) && (e.formatterId.Some? ==> IsCanonical(e.formatterId.value))
  }

  const ElementKey := "element"
  const FormatterKey := "formatter"
  const PropertiesKey := "properties"

  /** The individual settings as a JSON object of strings. */
  function SettingsJson(settings: map<string, string>): map<string, Json> {
    map k | k in settings :: JString(settings[k])
  }

  /** The object elementToJson builds. */
  function ElementJson(e: Element): Json {
    var withId := map[ElementKey := JString(e.id.text)];
    var withFormatter :=
      if e.formatterId.Some? then withId[FormatterKey := JString(e.formatterId.value.text)] else withId;
    JObject(withFormatter[PropertiesKey := JObject(SettingsJson(e.settings))])
  }

  /** getString(key): None when the key is missing or does not hold a string. */
  function GetString(data: map<string, Json>, key: string): Option<string> {
    if key in data && data[key].JString? then Some(data[key].str) else None
  }

  /** The formatter entry: Some(None) when absent, None when present but unreadable. */
  function DecodeFormatter(data: map<string, Json>): Option<Option<Uuid>> {
    if FormatterKey !in data then Some(None)
    else
      match GetString(data, FormatterKey)
      case None => None
      case Some(text) =>
        match ParseUuid(text)
        case None => None
        case Some(f) => Some(Some(f))
  }

  /** The properties object read back as strings; None when it is not an object of strings. */
  function DecodeSettings(data: map<string, Json>): Option<map<string, string>> {
    if PropertiesKey !in data || !data[PropertiesKey].JObject? then None
    else
      var props := data[PropertiesKey].fields;
      if forall k :: k in props ==> props[k].JString? then Some(map k | k in props :: props[k].str)
      else None
  }

  /** elementFromJson; None stands for the exceptions it throws. */
  function DecodeElement(data: map<string, Json>): Option<Element> {
    match GetString(data, ElementKey)
    case None => None
    case Some(idText) =>
      match ParseUuid(idText)
      case None => None
      case Some(id) =>
        match DecodeFormatter(data)
        case None => None
        case Some(formatter) =>
          match DecodeSettings(data)
          case None => None
          case Some(settings) => Some(Element(id, formatter, settings))
  }

  /** elementToJson: fills the object one setting at a time. */
  method ElementToJson(element: Element) returns (data: Json)
    ensures data == ElementJson(element)
  {
    var fields: map<string, Json> := map[ElementKey := JString(element.id.text)];
    if element.formatterId.Some? {
      fields := fields[FormatterKey := JString(element.formatterId.value.text)];
    }
    var properties: map<string, Json> := map[];
    var todo := element.settings.Keys;
    while todo != {}
      invariant todo <= element.settings.Keys
      invariant properties == map k | k in element.settings.Keys - todo :: JString(element.settings[k])
      decreases |todo|
    {
      var key :| key in todo;
      properties := properties[key := JString(element.settings[key])];
      todo := todo - {key};
    }
    assert element.settings.Keys - todo == element.settings.Keys;
    fields := fields[PropertiesKey := JObject(properties)];
    data := JObject(fields);
  }

  /** elementFromJson: reads the ids, then copies the properties one key at a time. */
  method ElementFromJson(data: map<string, Json>) returns (r: Option<Element>)
    ensures r == DecodeElement(data)
  {
    var elementText := GetString(data, ElementKey);
    if elementText.None? {
      return None;
    }
    var element := ParseUuid(elementText.value);
    if element.None? {
      return None;
    }
    var formatter: Option<Uuid> := None;
    if FormatterKey in data {
      var formatterText := GetString(data, FormatterKey);
      if formatterText.None? {
        return None;
      }
      formatter := ParseUuid(formatterText.value);
      if formatter.None? {
        return None;
      }
    }
    if PropertiesKey !in data || !data[PropertiesKey].JObject? {
      return None;
    }
    var props := data[PropertiesKey].fields;
    var properties: map<string, string> := map[];
    var keys := props.Keys;
    while keys != {}
      invariant keys <= props.Keys
      invariant forall k :: k in props.Keys - keys ==> props[k].JString?
      invariant properties == map k | k in props.Keys - keys :: props[k].str
      decreases |keys|
    {
      var key :| key in keys;
      if !props[key].JString? {
        return None;
      }
      properties := properties[key := props[key].str];
      keys := keys - {key};
    }
    assert props.Keys - keys == props.Keys;
    r := Some(Element(element.value, formatter, properties));
  }

  /** elementFromJson(elementToJson(e)) gives back the id, the formatter id and the settings. */
  lemma ElementRoundTrip(e: Element)
    requires ValidElement(e)
    ensures DecodeElement(ElementJson(e).fields) == Some(e)
  {
    var data := ElementJson(e).fields;
    ParseUuidOfText(e.id);
    if e.formatterId.Some? {
      ParseUuidOfText(e.formatterId.value);
    }
    var props := data[PropertiesKey].fields;
    assert props == SettingsJson(e.settings);
    assert (map k | k in props :: props[k].str) == e.settings;
  }

  /**
   * The formatter key is written exactly when the element has a formatter,
   * and a decoded element has no formatter exactly when the key is absent.
   */
  lemma FormatterKeyIff(e: Element, data: map<string, Json>)
    ensures FormatterKey in ElementJson(e).fields <==> e.formatterId.Some?
    ensures DecodeElement(data).Some? ==>
              (DecodeElement(data).value.formatterId.None? <==> FormatterKey !in data)
  {
  }

  // ---------------------------------------------------------------------
  // The favourite and recent lists in the user's additional info
  // ---------------------------------------------------------------------

  /** The text of a stored list: a JSON array, or text the JSON parser rejects. */
  datatype JsonText = ArrayText(items: seq<Json>) | Malformed

  /** A value of the user's additional info: a String (as the JSON it holds), an Integer, or another object. */
  datatype InfoValue = IText(text: JsonText) | IInt(n: int) | IOther

  /** CmsUser as far as its additional info goes. */
  class User {
    var additionalInfo: map<string, InfoValue>

    constructor (info: map<string, InfoValue>)
      ensures additionalInfo == info
    {
      additionalInfo := info;
    }
  }

  /** A java.util.List of element beans that the caller shares with saveElementList. */
  class ElementList {
    var elements: seq<Element>

    constructor (elements: seq<Element>)
      ensures this.elements == elements
    {
      this.elements := elements;
    }
  }

  const FavoriteListKey := "ADE_FAVORITE_LIST"
  const RecentListKey := "ADE_RECENT_LIST"
  const RecentListSizeKey := "ADE_RECENT_LIST_SIZE"
  const DefaultRecentListSize := 10
  /** The most entries a saved list keeps, to stay within the additional-info size limit. */
  const MaxStoredElements := 100

  /** One array entry read back: nothing when it is not an object or does not decode. */
  function DecodeEntry(entry: Json): seq<Element> {
    if !entry.JObject? then []
    else
      match DecodeElement(entry.fields)
      case None => []
      case Some(e) => [e]
  }

  /** The loop of getFavoriteList / getRecentList over the stored array. */
  function DecodeList(items: seq<Json>): seq<Element> {
    if items == [] then [] else DecodeList(items[..|items| - 1]) + DecodeEntry(items[|items| - 1])
  }

  /** The array saveElementList stores. */
  function EncodeList(elements: seq<Element>): seq<Json> {
    if elements == [] then [] else EncodeList(elements[..|elements| - 1]) + [ElementJson(elements[|elements| - 1])]
  }

  /** Whether the additional info holds a String under the key. */
  predicate HoldsText(info: map<string, InfoValue>, key: string) {
    key in info && info[key].IText?
  }

  /** What getFavoriteList / getRecentList return for the additional info. */
  function StoredList(info: map<string, InfoValue>, key: string): seq<Element> {
    if !HoldsText(info, key) then []
    else
      match info[key].text
      case Malformed => []
      case ArrayText(items) => DecodeList(items)
  }

  /** The list text saveElementList writes for these elements. */
  function Saved(info: map<string, InfoValue>, key: string, elements: seq<Element>): map<string, InfoValue> {
    info[key := IText(ArrayText(EncodeList(elements)))]
  }

  function Min(a: int, b: int): int {
    if a <= b then a else b
  }

  lemma {:induction false} DecodeListConcat(a: seq<Json>, b: seq<Json>)
    ensures DecodeList(a + b) == DecodeList(a) + DecodeList(b)
    decreases |b|
  {
    if b == [] {
      assert a + b == a;
    } else {
      assert (a + b)[..|a + b| - 1] == a + b[..|b| - 1];
      DecodeListConcat(a, b[..|b| - 1]);
    }
  }

  /** Decoding skips entries but never invents or reorders any: each result comes from its own entry. */
  lemma {:induction false} DecodeListBound(items: seq<Json>)
    ensures |DecodeList(items)| <= |items|
    ensures forall e :: e in DecodeList(items) ==>
              exists i :: 0 <= i < |items| && items[i].JObject? && DecodeElement(items[i].fields) == Some(e)
    decreases |items|
  {
    if items != [] {
      var init := items[..|items| - 1];
      DecodeListBound(init);
      forall e | e in DecodeList(items)
        ensures exists i :: 0 <= i < |items| && items[i].JObject? && DecodeElement(items[i].fields) == Some(e)
      {
        if e in DecodeList(init) {
          var i :| 0 <= i < |init| && init[i].JObject? && DecodeElement(init[i].fields) == Some(e);
          assert items[i] == init[i];
        } else {
          assert e in DecodeEntry(items[|items| - 1]);
        }
      }
    }
  }

  /** The array entry written for a valid element reads back as that one element. */
  lemma DecodeEntryOfElement(e: Element)
    requires ValidElement(e)
    ensures DecodeEntry(ElementJson(e)) == [e]
  {
    ElementRoundTrip(e);
  }

  /** Decoding one more entry appends what that entry decodes to. */
  lemma DecodeListSnoc(items: seq<Json>, entry: Json)
    ensures DecodeList(items + [entry]) == DecodeList(items) + DecodeEntry(entry)
  {
    var all := items + [entry];
    assert all[..|all| - 1] == items;
  }

  /** Encoding one more element appends its object. */
  lemma EncodeListSnoc(elements: seq<Element>, e: Element)
    ensures EncodeList(elements + [e]) == EncodeList(elements) + [ElementJson(e)]
  {
    var all := elements + [e];
    assert all[..|all| - 1] == elements;
  }

  /** An array of well-formed element objects decodes to exactly those elements. */
  lemma {:induction false} DecodeEncodeList(elements: seq<Element>)
    requires forall i :: 0 <= i < |elements| ==> ValidElement(elements[i])
    ensures DecodeList(EncodeList(elements)) == elements
    decreases |elements|
  {
    if elements != [] {
      var init := elements[..|elements| - 1];
      var last := elements[|elements| - 1];
      assert elements == init + [last];
      assert forall i :: 0 <= i < |init| ==> init[i] == elements[i];
      DecodeEncodeList(init);
      DecodeEntryOfElement(last);
      EncodeListSnoc(init, last);
      DecodeListSnoc(EncodeList(init), ElementJson(last));
    }
  }

  /**
   * Saving a list and reading it back gives the first min(n, 100) elements
   * in their original order.
   */
  lemma SaveThenRead(info: map<string, InfoValue>, key: string, elements: seq<Element>)
    requires forall i :: 0 <= i < |elements| ==> ValidElement(elements[i])
    ensures var kept := elements[..Min(|elements|, MaxStoredElements)];
            StoredList(Saved(info, key, kept), key) == kept
  {
    var kept := elements[..Min(|elements|, MaxStoredElements)];
    DecodeEncodeList(kept);
  }

  /** Saving under one key leaves the list stored under another key as it was. */
  lemma SaveKeepsOtherList(info: map<string, InfoValue>, key: string, other: string, elements: seq<Element>)
    requires other != key
    ensures StoredList(Saved(info, key, elements), other) == StoredList(info, other)
  {
  }

  /**
   * saveElementList: drops tail elements of the caller's list until at most
   * 100 remain, then stores them as a JSON array under the key.
   */
  method SaveElementList(user: User, elementList: ElementList, listKey: string)
    modifies user, elementList
    ensures elementList.elements == old(elementList.elements)[..Min(|old(elementList.elements)|, MaxStoredElements)]
    ensures user.additionalInfo == Saved(old(user.additionalInfo), listKey, elementList.elements)
  {
    ghost var original := elementList.elements;
    while |elementList.elements| > MaxStoredElements
      invariant |elementList.elements| >= Min(|original|, MaxStoredElements)
      invariant elementList.elements == original[..|elementList.elements|]
      invariant user.additionalInfo == old(user.additionalInfo)
      decreases |elementList.elements|
    {
      elementList.elements := elementList.elements[..|elementList.elements| - 1];
    }
    var data: seq<Json> := [];
    var i := 0;
    while i < |elementList.elements|
      invariant 0 <= i <= |elementList.elements|
      invariant data == EncodeList(elementList.elements[..i])
      invariant elementList.elements == original[..Min(|original|, MaxStoredElements)]
      invariant user.additionalInfo == old(user.additionalInfo)
    {
      var json := ElementToJson(elementList.elements[i]);
      assert elementList.elements[..i + 1][..i] == elementList.elements[..i];
      data := data + [json];
      i := i + 1;
    }
    assert elementList.elements[..i] == elementList.elements;
    user.additionalInfo := user.additionalInfo[listKey := IText(ArrayText(data))];
  }

  /** saveFavoriteList. */
  method SaveFavoriteList(user: User, favoriteList: ElementList)
    modifies user, favoriteList
    ensures favoriteList.elements == old(favoriteList.elements)[..Min(|old(favoriteList.elements)|, MaxStoredElements)]
    ensures user.additionalInfo == Saved(old(user.additionalInfo), FavoriteListKey, favoriteList.elements)
  {
    SaveElementList(user, favoriteList, FavoriteListKey);
  }

  /** saveRecentList. */
  method SaveRecentList(user: User, recentList: ElementList)
    modifies user, recentList
    ensures recentList.elements == old(recentList.elements)[..Min(|old(recentList.elements)|, MaxStoredElements)]
    ensures user.additionalInfo == Saved(old(user.additionalInfo), RecentListKey, recentList.elements)
  {
    SaveElementList(user, recentList, RecentListKey);
  }

  /**
   * The shared body of getFavoriteList and getRecentList: decodes a stored
   * String entry by entry, skipping entries that fail; when the stored value
   * is not a String, saves an empty list instead.
   */
  method ReadElementList(user: User, listKey: string) returns (list: seq<Element>)
    modifies user
    ensures list == StoredList(old(user.additionalInfo), listKey)
    ensures user.additionalInfo
            == if HoldsText(old(user.additionalInfo), listKey) then old(user.additionalInfo)
               else Saved(old(user.additionalInfo), listKey, [])
  {
    list := [];
    if HoldsText(user.additionalInfo, listKey) {
      match user.additionalInfo[listKey].text
      case Malformed =>
      case ArrayText(items) =>
        var i := 0;
        while i < |items|
          invariant 0 <= i <= |items|
          invariant list == DecodeList(items[..i])
          invariant user.additionalInfo == old(user.additionalInfo)
        {
          assert items[..i + 1][..i] == items[..i];
          if items[i].JObject? {
            var element := ElementFromJson(items[i].fields);
            if element.Some? {
              list := list + [element.value];
            }
          }
          i := i + 1;
        }
        assert items[..i] == items;
    } else {
      var empty := new ElementList([]);
      SaveElementList(user, empty, listKey);
    }
  }

  /** getFavoriteList. */
  method GetFavoriteList(user: User) returns (favList: seq<Element>)
    modifies user
    ensures favList == StoredList(old(user.additionalInfo), FavoriteListKey)
    ensures user.additionalInfo
            == if HoldsText(old(user.additionalInfo), FavoriteListKey) then old(user.additionalInfo)
               else Saved(old(user.additionalInfo), FavoriteListKey, [])
  {
    favList := ReadElementList(user, FavoriteListKey);
  }

  /** getRecentList. */
  method GetRecentList(user: User) returns (recentList: seq<Element>)
    modifies user
    ensures recentList == StoredList(old(user.additionalInfo), RecentListKey)
    ensures user.additionalInfo
            == if HoldsText(old(user.additionalInfo), RecentListKey) then old(user.additionalInfo)
               else Saved(old(user.additionalInfo), RecentListKey, [])
  {
    recentList := ReadElementList(user, RecentListKey);
  }

  /** Reading twice gives the same list: the first read leaves a readable value behind. */
  lemma ReadIsRepeatable(info: map<string, InfoValue>, key: string)
    ensures var after := if HoldsText(info, key) then info else Saved(info, key, []);
            StoredList(after, key) == StoredList(info, key)
  {
  }

  /** getRecentListMaxSize; Err is the ClassCastException of a stored non-Integer. */
  function RecentListMaxSize(info: map<string, InfoValue>): (r: Result<int>)
    ensures RecentListSizeKey !in info ==> r == Ok(DefaultRecentListSize)
    ensures RecentListSizeKey in info ==>
              (r.Ok? <==> info[RecentListSizeKey].IInt?)
              && (r.Ok? ==> r.value == info[RecentListSizeKey].n)
  {
    if RecentListSizeKey !in info then Ok(DefaultRecentListSize)
    else
      match info[RecentListSizeKey]
      case IInt(n) => Ok(n)
      case _ => Err(ClassCast)
  }

  // ---------------------------------------------------------------------
  // Configuration lookup and detail pages over abstract caches
  // ---------------------------------------------------------------------

  datatype DetailPageInfo = DetailPageInfo(uri: string)

  /** CmsADEConfigData as far as the lookups use it. */
  datatype ConfigData = ConfigData(
    basePath: Option<string>,
    detailPagesForType: string -> Option<seq<DetailPageInfo>>)

  /** A freshly initialised CmsADEConfigData: no base path and no detail pages. */
  function DefaultConfig(): ConfigData {
    ConfigData(None, resType => None)
  }

  /** CmsConfigurationCache, as the lookups it offers. */
  datatype ConfigurationCache = ConfigurationCache(
    siteConfigData: string -> Option<ConfigData>,
    moduleConfiguration: Option<ConfigData>,
    parentFolderType: string -> Option<string>)

  datatype Caches = Caches(online: ConfigurationCache, offline: ConfigurationCache)

  /** The CMS context: whether the current project is online, and how a site path becomes a root path. */
  datatype CmsContext = CmsContext(online: bool, addSiteRoot: string -> string)

  function CacheFor(caches: Caches, cms: CmsContext): ConfigurationCache {
    if cms.online then caches.online else caches.offline
  }

  /** internalLookupConfiguration: the site configuration, else the module configuration. */
  function InternalLookupConfiguration(caches: Caches, cms: CmsContext, rootPath: string): (r: Option<ConfigData>)
    ensures r.None? <==> CacheFor(caches, cms).siteConfigData(rootPath).None?
                         && CacheFor(caches, cms).moduleConfiguration.None?
    ensures r.Some? ==> r == CacheFor(caches, cms).siteConfigData(rootPath)
                        || r == CacheFor(caches, cms).moduleConfiguration
  {
    var cache := CacheFor(caches, cms);
    match cache.siteConfigData(rootPath)
    case Some(config) => Some(config)
    case None => cache.moduleConfiguration
  }

  /** lookupConfiguration: never null, a fresh default when neither cache has one. */
  function LookupConfiguration(caches: Caches, cms: CmsContext, rootPath: string): ConfigData {
    match InternalLookupConfiguration(caches, cms, rootPath)
    case Some(config) => config
    case None => DefaultConfig()
  }

  /**
   * The fallback order of the lookup: the project's cache decides; its site
   * configuration wins, then its module configuration, then the default.
   */
  lemma LookupOrder(caches: Caches, cms: CmsContext, rootPath: string)
    ensures var cache := if cms.online then caches.online else caches.offline;
            var r := LookupConfiguration(caches, cms, rootPath);
            && (cache.siteConfigData(rootPath).Some? ==> r == cache.siteConfigData(rootPath).value)
            && ((cache.siteConfigData(rootPath).None? && cache.moduleConfiguration.Some?)
                  ==> r == cache.moduleConfiguration.value)
            && ((cache.siteConfigData(rootPath).None? && cache.moduleConfiguration.None?)
                  ==> r == DefaultConfig())
  {
  }

  /** findEntryPoint: the configuration's base path, else the site root of "/". */
  function FindEntryPoint(caches: Caches, cms: CmsContext, openPath: string): (r: string)
    ensures LookupConfiguration(caches, cms, openPath).basePath.Some? ==>
              r == LookupConfiguration(caches, cms, openPath).basePath.value
    ensures LookupConfiguration(caches, cms, openPath).basePath.None? ==> r == cms.addSiteRoot("/")
  {
    var configData := LookupConfiguration(caches, cms, openPath);
    match configData.basePath
    case None => cms.addSiteRoot("/")
    case Some(result) => result
  }

  /** Without any configuration for the path, the entry point is the site root. */
  lemma EntryPointWithoutConfiguration(caches: Caches, cms: CmsContext, openPath: string)
    requires CacheFor(caches, cms).siteConfigData(openPath).None?
    requires CacheFor(caches, cms).moduleConfiguration.None?
    ensures FindEntryPoint(caches, cms, openPath) == cms.addSiteRoot("/")
  {
  }

  /** A detail page list that is neither null nor empty. */
  predicate HasPages(pages: Option<seq<DetailPageInfo>>) {
    pages.Some? && pages.value != []
  }

  /** getDetailPage; None stands for null. */
  function GetDetailPage(caches: Caches, cms: CmsContext, pageRootPath: string, originPath: string): Option<string> {
    var cache := CacheFor(caches, cms);
    match cache.parentFolderType(pageRootPath)
    case None => None
    case Some(resType) =>
      var originRootPath := cms.addSiteRoot(originPath);
      var pageInfo := LookupConfiguration(caches, cms, originRootPath).detailPagesForType(resType);
      if !HasPages(pageInfo) then
        var fallback := LookupConfiguration(caches, cms, pageRootPath).detailPagesForType(resType);
        if !HasPages(fallback) then None else Some(fallback.value[0].uri)
      else Some(pageInfo.value[0].uri)
  }

  /**
   * The detail page is null without a parent folder type; otherwise it is the
   * first page the origin's configuration lists for the type, else the first
   * the page root path's configuration lists, else null.
   */
  lemma DetailPageOrder(caches: Caches, cms: CmsContext, pageRootPath: string, originPath: string)
    ensures var resType := CacheFor(caches, cms).parentFolderType(pageRootPath);
            var r := GetDetailPage(caches, cms, pageRootPath, originPath);
            && (resType.None? ==> r.None?)
            && (resType.Some? ==>
                  var fromOrigin := LookupConfiguration(caches, cms, cms.addSiteRoot(originPath))
                                      .detailPagesForType(resType.value);
                  var fromPage := LookupConfiguration(caches, cms, pageRootPath).detailPagesForType(resType.value);
                  && (r.Some? <==> HasPages(fromOrigin) || HasPages(fromPage))
                  && (HasPages(fromOrigin) ==> r == Some(fromOrigin.value[0].uri))
                  && (!HasPages(fromOrigin) && HasPages(fromPage) ==> r == Some(fromPage.value[0].uri)))
  {
  }
}
