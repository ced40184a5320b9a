/**
 * The form-value handling of CmsSitemapEntryEditor: the values the dialog
 * starts with, and the rewriting of the submitted field values into the
 * sitemap entry's properties. A Java Map<String, String> is a map whose
 * values may be null (None); `get` of a missing key is null as well.
 */
module SitemapEntryEditor {
  import opened Util

  const DefaultTemplateValue := ""
  const FieldTitle := "field_title"
  const FieldUrlName := "field_urlname"
  const FieldTemplate := "template"
  const FieldTemplateInheritCheckbox := "field_template_inherited"
  /** The names of the sitemap properties `template` and `templateInherited`. */
  const PropertyTemplate := "template"
  const PropertyTemplateInherited := "templateInherited"

  /** Map.get: the value, or null for a missing key. */
  function Lookup(m: map<string, Option<string>>, key: string): Option<string> {
    if key in m then m[key] else None
  }

  // ---------------------------------------------------------------------
  // getAndRemoveValue
  // ---------------------------------------------------------------------

  /** The map after getAndRemoveValue: the key goes only when its value is non-null. */
  function RemoveValue(m: map<string, Option<string>>, key: string): map<string, Option<string>> {
    if Lookup(m, key).Some? then m - {key} else m
  }

  /**
   * Afterwards the key no longer yields a value (it is gone, or it is still
   * mapped to null), and every other entry is as it was.
   */
  lemma RemoveValueEffect(m: map<string, Option<string>>, key: string)
    ensures Lookup(RemoveValue(m, key), key) == None
    ensures forall k :: k != key ==> (k in RemoveValue(m, key) <==> k in m)
    ensures forall k :: k != key && k in m ==> RemoveValue(m, key)[k] == m[k]
  {
  }

  /** The form's field values, a HashMap the editor changes in place. */
  class FieldValues {
    var values: map<string, Option<string>>

    constructor (values: map<string, Option<string>>)
      ensures this.values == values
    {
      this.values := values;
    }
  }

  /** getAndRemoveValue: returns the value for the key and removes the key when that value is non-null. */
  method GetAndRemoveValue(fields: FieldValues, key: string) returns (value: Option<string>)
    modifies fields
    ensures value == Lookup(old(fields.values), key)
    ensures fields.values == RemoveValue(old(fields.values), key)
  {
    value := Lookup(fields.values, key);
    if value.Some? {
      fields.values := fields.values - {key};
    }
  }

  // ---------------------------------------------------------------------
  // getTemplateProperties
  // ---------------------------------------------------------------------

  function AsciiLower(c: char): char {
    if 'A' <= c <= 'Z' then (c as int + 32) as char else c
  }

  /** String.equalsIgnoreCase, with the ASCII case folding that decides it for "true". */
  predicate EqualsIgnoreCase(a: string, b: string) {
    |a| == |b| && forall i :: 0 <= i < |a| ==> AsciiLower(a[i]) == AsciiLower(b[i])
  }

  /** The new values of the `template` and `templateInherited` properties; None deletes a property. */
  datatype TemplateProps = TemplateProps(template: Option<string>, templateInherited: Option<string>)

  /**
   * What getTemplateProperties returns for the field values: Err is the
   * NullPointerException of a missing template or a missing checkbox value.
   */
  function TemplateProperties(values: map<string, Option<string>>): Result<TemplateProps> {
    var shouldInheritTemplateStr := Lookup(values, FieldTemplateInheritCheckbox);
    var template := Lookup(RemoveValue(values, FieldTemplateInheritCheckbox), PropertyTemplate);
    if template.None? then Err(NullPointer)
    else if template.value == DefaultTemplateValue then Ok(TemplateProps(None, None))
    else if shouldInheritTemplateStr.None? then Err(NullPointer)
    else
      var shouldInheritTemplate := EqualsIgnoreCase(shouldInheritTemplateStr.value, "true");
      Ok(TemplateProps(template, if shouldInheritTemplate then template else None))
  }

  /**
   * The cases of getTemplateProperties: the default template deletes both
   * properties; any other template is kept, and inherited exactly when the
   * checkbox reads "true" ignoring case; a missing template, or a missing
   * checkbox beside a non-default template, throws.
   */
  lemma TemplatePropertiesCases(values: map<string, Option<string>>)
    ensures var checkbox := Lookup(values, FieldTemplateInheritCheckbox);
            var template := Lookup(values, PropertyTemplate);
            var r := TemplateProperties(values);
            && (r.Err? <==> template.None? || (template.value != DefaultTemplateValue && checkbox.None?))
            && (template == Some(DefaultTemplateValue) ==> r == Ok(TemplateProps(None, None)))
            && ((r.Ok? && template.value != DefaultTemplateValue) ==>
                  && r.value.template == template
                  && (r.value.templateInherited.Some? <==> EqualsIgnoreCase(checkbox.value, "true"))
                  && (r.value.templateInherited.Some? ==> r.value.templateInherited == template))
  {
    assert PropertyTemplate != FieldTemplateInheritCheckbox;
  }

  /**
   * getTemplateProperties: the checkbox value is taken out of the field
   * values (always, when it is non-null) before the template is read.
   */
  method GetTemplateProperties(fields: FieldValues) returns (r: Result<TemplateProps>)
    modifies fields
    ensures r == TemplateProperties(old(fields.values))
    ensures fields.values == RemoveValue(old(fields.values), FieldTemplateInheritCheckbox)
  {
    var shouldInheritTemplateStr := GetAndRemoveValue(fields, FieldTemplateInheritCheckbox);
    var template := Lookup(fields.values, PropertyTemplate);
    if template.None? {
      return Err(NullPointer);
    }
    if template.value == DefaultTemplateValue {
      return Ok(TemplateProps(None, None));
    }
    if shouldInheritTemplateStr.None? {
      return Err(NullPointer);
    }
    var shouldInheritTemplate := EqualsIgnoreCase(shouldInheritTemplateStr.value, "true");
    var templateInherited := if shouldInheritTemplate then template else None;
    r := Ok(TemplateProps(template, templateInherited));
  }

  // ---------------------------------------------------------------------
  // removeHiddenProperties
  // ---------------------------------------------------------------------

  /**
   * removeHiddenProperties: a new map with exactly the entries whose key is
   * not hidden; `isHidden` stands for CmsSitemapController.isHiddenProperty.
   * The input map is a value here, so it cannot change.
   */
  method RemoveHiddenProperties<V>(propConfig: map<string, V>, isHidden: string -> bool)
    returns (result: map<string, V>)
    ensures forall k :: k in result <==> k in propConfig && !isHidden(k)
    ensures forall k :: k in result ==> result[k] == propConfig[k]
  {
    result := map[];
    var todo := propConfig.Keys;
    while todo != {}
      invariant todo <= propConfig.Keys
      invariant forall k :: k in result <==> k in propConfig && k !in todo && !isHidden(k)
      invariant forall k :: k in result ==> result[k] == propConfig[k]
      decreases |todo|
    {
      var key :| key in todo;
      if !isHidden(key) {
        result := result[key := propConfig[key]];
      }
      todo := todo - {key};
    }
  }

  // ---------------------------------------------------------------------
  // start: the values the dialog opens with
  // ---------------------------------------------------------------------

  /** CmsClientSitemapEntry as far as the editor reads it. */
  datatype SitemapEntry = SitemapEntry(
    name: Option<string>,
    title: Option<string>,
    properties: map<string, Option<string>>)

  /** Whether the entry inherits its template: `template` is set and equals `templateInherited`. */
  predicate InheritTemplate(properties: map<string, Option<string>>) {
    var propTemplate := Lookup(properties, PropertyTemplate);
    propTemplate.Some? && Lookup(properties, PropertyTemplateInherited) == propTemplate
  }

  /** The template the selector starts with; "" (the default template) when none is set. */
  function InitialTemplate(properties: map<string, Option<string>>): (r: string)
    ensures Lookup(properties, PropertyTemplate).Some? ==> r == Lookup(properties, PropertyTemplate).value
    ensures Lookup(properties, PropertyTemplate).None? ==> r == DefaultTemplateValue
  {
    var propTemplate := Lookup(properties, PropertyTemplate);
    if propTemplate.Some? then propTemplate.value else ""
  }

  /** `"" + inheritTemplate`: the text of the checkbox's start value. */
  function BooleanText(b: bool): string {
    if b then "true" else "false"
  }

  /** The url name the url-name field shows: "" for a missing name. */
  function UrlNameFieldValue(entry: SitemapEntry): (r: string)
    ensures entry.name.Some? ==> r == entry.name.value
    ensures entry.name.None? ==> r == ""
  {
    var urlName := entry.name;
    if urlName.None? then "" else urlName.value
  }

  /** The title createTitleField puts into its text box, as written: the default it computes is never used. */
  function TitleFieldValueAsWritten(entry: SitemapEntry): Option<string> {
    var title := if entry.title.None? then Some("") else entry.title;
    entry.title
  }


  /** The title the text box is evidently meant to show: "" for a missing title, as for the url name. */
  function TitleFieldValue(entry: SitemapEntry): (r: string)
    ensures entry.title.Some? ==> r == entry.title.value
    ensures entry.title.None? ==> r == ""
  {
    var title := entry.title;
    if title.None? then "" else title.value
  }

  /**
   * For every entry without a title, the text box is given null as written,
   * where the corrected field shows the "" createTitleField computes.
   */
  lemma TitleFieldDefaultUnused(entry: SitemapEntry)
    ensures entry.title.None? ==> TitleFieldValueAsWritten(entry) == None && TitleFieldValue(entry) == ""
  {
  }

  /** The template and checkbox values start adds to the form. */
  function StartTemplateFields(entry: SitemapEntry): map<string, Option<string>> {
    map[FieldTemplate := Some(InitialTemplate(entry.properties)),
        FieldTemplateInheritCheckbox := Some(BooleanText(InheritTemplate(entry.properties)))]
  }

  // ---------------------------------------------------------------------
  // handleSubmit
  // ---------------------------------------------------------------------

  /** The title and url name handleSubmit takes out of the form and passes on to the controller. */
  datatype Submission = Submission(title: Option<string>, urlName: Option<string>)

  /** The field values after the title and the url name are taken out. */
  function WithoutNameFields(values: map<string, Option<string>>): map<string, Option<string>> {
    RemoveValue(RemoveValue(values, FieldTitle), FieldUrlName)
  }

  /** The field values handleSubmit ends with. */
  function SubmittedValues(values: map<string, Option<string>>): map<string, Option<string>> {
    var rest := WithoutNameFields(values);
    var after := RemoveValue(rest, FieldTemplateInheritCheckbox);
    match TemplateProperties(rest)
    case Err(_) => after
    case Ok(props) => after[PropertyTemplate := props.template][PropertyTemplateInherited := props.templateInherited]
  }

  /** What handleSubmit passes on: the title and url name, or the exception getTemplateProperties threw. */
  function Submit(values: map<string, Option<string>>): Result<Submission> {
    match TemplateProperties(WithoutNameFields(values))
    case Err(e) => Err(e)
    case Ok(_) => Ok(Submission(Lookup(values, FieldTitle), Lookup(values, FieldUrlName)))
  }

  /**
   * handleSubmit up to the asynchronous url-name translation: removes the
   * title and url-name fields and the checkbox, and writes the template
   * properties into the field values.
   */
  method HandleSubmit(fields: FieldValues) returns (r: Result<Submission>)
    modifies fields
    ensures r == Submit(old(fields.values))
    ensures fields.values == SubmittedValues(old(fields.values))
  {
    var titleValue := GetAndRemoveValue(fields, FieldTitle);
    var urlNameValue := GetAndRemoveValue(fields, FieldUrlName);
    var templateProps := GetTemplateProperties(fields);
    if templateProps.Err? {
      return Err(templateProps.exception);
    }
    fields.values := fields.values[PropertyTemplate := templateProps.value.template];
    fields.values := fields.values[PropertyTemplateInherited := templateProps.value.templateInherited];
    r := Ok(Submission(titleValue, urlNameValue));
  }

  /**
   * A successful submit leaves no value under the title, url-name or checkbox
   * fields, sets both template properties from getTemplateProperties, and
   * keeps every other field value.
   */
  lemma SubmitRewritesFields(values: map<string, Option<string>>)
    requires Submit(values).Ok?
    ensures var after := SubmittedValues(values);
            var props := TemplateProperties(WithoutNameFields(values)).value;
            && Lookup(after, FieldTitle) == None
            && Lookup(after, FieldUrlName) == None
            && Lookup(after, FieldTemplateInheritCheckbox) == None
            && after[PropertyTemplate] == props.template
            && after[PropertyTemplateInherited] == props.templateInherited
            && forall k :: k !in {FieldTitle, FieldUrlName, FieldTemplateInheritCheckbox,
                                  PropertyTemplate, PropertyTemplateInherited} ==>
                 ((k in after <==> k in values) && (k in values ==> after[k] == values[k]))
  {
    var rest := WithoutNameFields(values);
    RemoveValueEffect(values, FieldTitle);
    RemoveValueEffect(RemoveValue(values, FieldTitle), FieldUrlName);
    RemoveValueEffect(rest, FieldTemplateInheritCheckbox);
  }

  /**
   * Submitting the template fields exactly as start filled them in keeps the
   * entry's template, and makes it inherited exactly when start showed the
   * checkbox ticked; an entry without a template gets both properties deleted.
   */
  lemma UnchangedTemplateFields(entry: SitemapEntry, others: map<string, Option<string>>)
    ensures var values := others + StartTemplateFields(entry);
            var propTemplate := Lookup(entry.properties, PropertyTemplate);
            var r := TemplateProperties(WithoutNameFields(values));
            && r.Ok?
            && (propTemplate.None? || propTemplate == Some(DefaultTemplateValue) ==> r.value == TemplateProps(None, None))
            && (propTemplate.Some? && propTemplate.value != DefaultTemplateValue ==>
                  r.value == TemplateProps(propTemplate,
                                           if InheritTemplate(entry.properties) then propTemplate else None))
  {
    var values := others + StartTemplateFields(entry);
    var rest := WithoutNameFields(values);
    RemoveValueEffect(values, FieldTitle);
    RemoveValueEffect(RemoveValue(values, FieldTitle), FieldUrlName);
    assert Lookup(rest, FieldTemplate) == Some(InitialTemplate(entry.properties));
    assert Lookup(rest, FieldTemplateInheritCheckbox) == Some(BooleanText(InheritTemplate(entry.properties)));
    TemplatePropertiesCases(rest);
    assert EqualsIgnoreCase("true", "true");
    assert !EqualsIgnoreCase("false", "true") by {
      assert |"false"| != |"true"|;
    }
  }
}
