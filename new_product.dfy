/**
 * The "add product" form: its initial values, the change handlers for the
 * plain, nested, code-list and feature-list fields, and the submit check
 * of the required fields.
 */
module NewProduct {
  import opened Seqs

  /** One product key in the codes list. */
  datatype CodeEntry = CodeEntry(code: string, platform: string)

  /** The `field` argument of `handleCodeChange`. */
  datatype CodeField = CodeText | CodePlatform

  /**
   * `formData`. The plain text fields are kept by name, the nested
   * sections ("requirements", "seo") by section and field name, as the
   * computed keys of the handlers address them.
   */
  datatype ProductForm = ProductForm(
    fields: map<string, string>,
    codes: seq<CodeEntry>,
    images: seq<string>,
    features: seq<string>,
    sections: map<string, map<string, string>>)

  /** The initial form: empty texts, discount "0", unlimited stock of "100", a draft. */
  function InitialForm(): ProductForm
  {
    ProductForm(
      map["name" := "", "description" := "", "platform" := "", "category" := "", "price" := "",
          "discount" := "0", "stock" := "unlimited", "stockQuantity" := "100", "status" := "draft"],
      [], [], [],
      map["requirements" := map["os" := "", "processor" := "", "memory" := "", "graphics" := "", "storage" := ""],
          "seo" := map["title" := "", "description" := "", "keywords" := ""]])
  }

  /** `formData[name]`, with a missing field read as the empty string (both are falsy). */
  function Field(f: ProductForm, name: string): string
  {
    if name in f.fields then f.fields[name] else ""
  }

  /** `formData[section][field]`, missing read as empty. */
  function NestedField(f: ProductForm, section: string, field: string): string
  {
    if section in f.sections && field in f.sections[section] then f.sections[section][field] else ""
  }

  /** `handleChange` and the select handlers: `{...prev, [name]: value}`. */
  function Change(f: ProductForm, name: string, value: string): (r: ProductForm)
    ensures Field(r, name) == value
    ensures forall n :: n != name && n in f.fields ==> n in r.fields && r.fields[n] == f.fields[n]
    ensures r.fields.Keys == f.fields.Keys + {name}
    ensures r.codes == f.codes && r.images == f.images && r.features == f.features && r.sections == f.sections
  {
    f.(fields := f.fields[name := value])
  }

  /** `handleNestedChange`: `{...prev, [section]: {...prev[section], [field]: value}}`. */
  function NestedChange(f: ProductForm, section: string, field: string, value: string): (r: ProductForm)
    ensures NestedField(r, section, field) == value
    ensures forall s, k :: (s != section || k != field) ==> NestedField(r, s, k) == NestedField(f, s, k)
    ensures r.fields == f.fields && r.codes == f.codes && r.images == f.images && r.features == f.features
  {
    var current := if section in f.sections then f.sections[section] else map[];
    f.(sections := f.sections[section := current[field := value]])
  }

  /** `handleAddCode`: a blank code on the form's platform. */
  function AddCode(f: ProductForm): (r: ProductForm)
    ensures r.codes == f.codes + [CodeEntry("", Field(f, "platform"))]
    ensures r.fields == f.fields && r.images == f.images && r.features == f.features && r.sections == f.sections
  {
    f.(codes := f.codes + [CodeEntry("", Field(f, "platform"))])
  }

  /** `handleRemoveCode(index)`. */
  function RemoveCode(f: ProductForm, index: int): (r: ProductForm)
    ensures 0 <= index < |f.codes| ==> r.codes == f.codes[..index] + f.codes[index + 1..]
    ensures !(0 <= index < |f.codes|) ==> r == f
    ensures r.fields == f.fields && r.images == f.images && r.features == f.features && r.sections == f.sections
  {
    f.(codes := RemoveAt(f.codes, index))
  }

  function SetCodeField(c: CodeEntry, field: CodeField, value: string): CodeEntry
  {
    match field
    case CodeText => c.(code := value)
    case CodePlatform => c.(platform := value)
  }

  /** `handleCodeChange(index, field, value)`: only that entry's field changes. */
  function ChangeCode(f: ProductForm, index: int, field: CodeField, value: string): (r: ProductForm)
    ensures |r.codes| == |f.codes|
    ensures forall j :: 0 <= j < |f.codes| && j != index ==> r.codes[j] == f.codes[j]
    ensures 0 <= index < |f.codes| ==>
      (field == CodeText ==> r.codes[index] == CodeEntry(value, f.codes[index].platform))
      && (field == CodePlatform ==> r.codes[index] == CodeEntry(f.codes[index].code, value))
    ensures r.fields == f.fields && r.images == f.images && r.features == f.features && r.sections == f.sections
  {
    f.(codes := UpdateAt(f.codes, index, (c: CodeEntry) => SetCodeField(c, field, value)))
  }

  /** `handleAddFeature`: a blank feature line. */
  function AddFeature(f: ProductForm): (r: ProductForm)
    ensures r.features == f.features + [""]
    ensures r.fields == f.fields && r.codes == f.codes && r.images == f.images && r.sections == f.sections
  {
    f.(features := f.features + [""])
  }

  /** `handleRemoveFeature(index)`. */
  function RemoveFeature(f: ProductForm, index: int): (r: ProductForm)
    ensures 0 <= index < |f.features| ==> r.features == f.features[..index] + f.features[index + 1..]
    ensures !(0 <= index < |f.features|) ==> r == f
    ensures r.fields == f.fields && r.codes == f.codes && r.images == f.images && r.sections == f.sections
  {
    f.(features := RemoveAt(f.features, index))
  }

  /** `handleFeatureChange(index, value)`. */
  function ChangeFeature(f: ProductForm, index: int, value: string): (r: ProductForm)
    ensures |r.features| == |f.features|
    ensures forall j :: 0 <= j < |f.features| ==> r.features[j] == if j == index then value else f.features[j]
    ensures r.fields == f.fields && r.codes == f.codes && r.images == f.images && r.sections == f.sections
  {
    f.(features := UpdateAt(f.features, index, (_: string) => value))
  }

  /** The four fields `handleSubmit` insists on. */
  const RequiredFields: seq<string> := ["name", "description", "platform", "price"]

  /** The check of `handleSubmit`: a required field is empty or missing. */
  predicate MissingRequired(f: ProductForm)
  {
    Field(f, "name") == "" || Field(f, "description") == "" || Field(f, "platform") == "" || Field(f, "price") == ""
  }

  // ------------------------------------------------------------ lemmas

  /** The form can be saved exactly when none of the required fields is empty. */
  lemma MissingRequiredIff(f: ProductForm)
    ensures MissingRequired(f) <==> exists i :: 0 <= i < |RequiredFields| && Field(f, RequiredFields[i]) == ""
  {
    if MissingRequired(f) {
      if Field(f, "name") == "" {
        assert Field(f, RequiredFields[0]) == "";
      } else if Field(f, "description") == "" {
        assert Field(f, RequiredFields[1]) == "";
      } else if Field(f, "platform") == "" {
        assert Field(f, RequiredFields[2]) == "";
      } else {
        assert Field(f, RequiredFields[3]) == "";
      }
    }
  }

  /** The untouched form is refused; filling the four required fields is enough. */
  lemma FillingRequiredFields(name: string, description: string, platform: string, price: string)
    requires name != "" && description != "" && platform != "" && price != ""
    ensures MissingRequired(InitialForm())
    ensures !MissingRequired(Change(Change(Change(Change(InitialForm(), "name", name), "description", description), "platform", platform), "price", price))
  {
  }

  /** The nested fields start out empty and a code added to the untouched form has no platform. */
  lemma InitialFormShape()
    ensures forall k :: k in ["os", "processor", "memory", "graphics", "storage"] ==> NestedField(InitialForm(), "requirements", k) == ""
    ensures Field(InitialForm(), "discount") == "0" && Field(InitialForm(), "stock") == "unlimited"
    ensures Field(InitialForm(), "stockQuantity") == "100" && Field(InitialForm(), "status") == "draft"
    ensures AddCode(InitialForm()).codes == [CodeEntry("", "")]
  {
  }

  /** A code added after choosing the platform takes that platform. */
  lemma AddCodeTakesPlatform(f: ProductForm, platform: string)
    ensures var g := AddCode(Change(f, "platform", platform));
      |g.codes| == |f.codes| + 1 && g.codes[|f.codes|] == CodeEntry("", platform)
  {
  }

  /** Removing the code or feature just added restores the form. */
  lemma AddThenRemove(f: ProductForm)
    ensures RemoveCode(AddCode(f), |f.codes|) == f
    ensures RemoveFeature(AddFeature(f), |f.features|) == f
  {
    RemoveAtLast(f.codes, CodeEntry("", Field(f, "platform")));
    RemoveAtLast(f.features, "");
  }

  /** Changing a code's text twice keeps the last text; changing it back to its own text changes nothing. */
  lemma ChangeCodeLastWins(f: ProductForm, index: int, a: string, b: string)
    requires 0 <= index < |f.codes|
    ensures ChangeCode(ChangeCode(f, index, CodeText, a), index, CodeText, b) == ChangeCode(f, index, CodeText, b)
    ensures ChangeCode(f, index, CodeText, f.codes[index].code) == f
  {
    var g := ChangeCode(ChangeCode(f, index, CodeText, a), index, CodeText, b);
    var h := ChangeCode(f, index, CodeText, b);
    assert g.codes == h.codes;
    assert ChangeCode(f, index, CodeText, f.codes[index].code).codes == f.codes;
  }

  // ------------------------------------------------------------ the page

  class NewProductPage {
    var form: ProductForm
    var isSaving: bool

    constructor ()
      ensures form == InitialForm() && !isSaving
    {
      form := InitialForm();
      isSaving := false;
    }

    method HandleChange(name: string, value: string)
      modifies this
      ensures form == Change(old(form), name, value) && isSaving == old(isSaving)
    {
      form := Change(form, name, value);
    }

    method HandleNestedChange(section: string, field: string, value: string)
      modifies this
      ensures form == NestedChange(old(form), section, field, value) && isSaving == old(isSaving)
    {
      form := NestedChange(form, section, field, value);
    }

    method HandleAddCode()
      modifies this
      ensures form == AddCode(old(form)) && isSaving == old(isSaving)
    {
      form := AddCode(form);
    }

    method HandleRemoveCode(index: int)
      modifies this
      ensures form == RemoveCode(old(form), index) && isSaving == old(isSaving)
    {
      form := RemoveCode(form, index);
    }

    method HandleCodeChange(index: int, field: CodeField, value: string)
      modifies this
      ensures form == ChangeCode(old(form), index, field, value) && isSaving == old(isSaving)
    {
      form := ChangeCode(form, index, field, value);
    }

    method HandleAddFeature()
      modifies this
      ensures form == AddFeature(old(form)) && isSaving == old(isSaving)
    {
      form := AddFeature(form);
    }

    method HandleRemoveFeature(index: int)
      modifies this
      ensures form == RemoveFeature(old(form), index) && isSaving == old(isSaving)
    {
      form := RemoveFeature(form, index);
    }

    method HandleFeatureChange(index: int, value: string)
      modifies this
      ensures form == ChangeFeature(old(form), index, value) && isSaving == old(isSaving)
    {
      form := ChangeFeature(form, index, value);
    }

    /**
     * `handleSubmit`: refuses a form with a required field missing, and
     * otherwise saves it (the redirect is not modelled). Either way the
     * saving flag is cleared again and the form is kept.
     */
    method HandleSubmit() returns (saved: bool)
      modifies this
      ensures saved <==> !MissingRequired(old(form))
      ensures form == old(form) && !isSaving
    {
      isSaving := true;
      if MissingRequired(form) {
        isSaving := false;
        return false;
      }
      saved := true;
      isSaving := false;
    }
  }
}
