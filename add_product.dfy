/** The product dialog (src/pages/ProductMaster/AddProduct.jsx): a form of
    seven text fields and three image files that creates a product, or
    updates the one passed in for editing, by sending a multipart body. */
module AddProduct {
  import opened Wrappers
  import opened Text
  import opened Fetch

  /** `VITE_API_URL`, or a fixed URL when the build has none. */
  const DefaultApiUrl := "http://localhost:5000/api/products"

  function ApiUrl(env: Option<string>): (url: string)
    ensures Truthy(env) ==> url == env.value
    ensures !Truthy(env) ==> url == DefaultApiUrl
  {
    if Truthy(env) then env.value else DefaultApiUrl
  }

  // ----------------------------------------------------------------------
  // Form values and the schema
  // ----------------------------------------------------------------------

  /** A file picked in a file input; its content is not modelled. */
  datatype File = File(name: string)

  /** The values the form submits: text fields and file lists, by field
      name; a field the form never received is absent. */
  datatype ProductValues = ProductValues(texts: map<string, string>, images: map<string, seq<File>>)

  const TextFields: seq<string> := [
    "product_name", "registration_number", "manufactured_by", "antidotes_statement",
    "marked_by", "customer_care_details", "gstin"]

  const ImageFields: seq<string> := ["product_image", "cautionary_symbol_image", "product_instruction_image"]

  /** One rule of the schema: a required text field, or a required image
      field (any value but a missing one passes, even an empty file list). */
  datatype Rule = TextRequired(field: string, message: string) | ImageRequired(field: string, message: string)

  const Schema: seq<Rule> := [
    TextRequired("product_name", "Product name is required"),
    TextRequired("registration_number", "Registration number is required"),
    TextRequired("manufactured_by", "Manufacturer is required"),
    TextRequired("antidotes_statement", "Antidotes statement is required"),
    TextRequired("marked_by", "Marked by is required"),
    TextRequired("customer_care_details", "Customer care details is required"),
    TextRequired("gstin", "GSTIN is required"),
    ImageRequired("product_image", "Product image is required"),
    ImageRequired("cautionary_symbol_image", "Cautionary symbol image is required"),
    ImageRequired("product_instruction_image", "Product instruction image is required")
  ]

  predicate Fails(v: ProductValues, r: Rule)
  {
    match r
    case TextRequired(f, _) => f !in v.texts || v.texts[f] == ""
    case ImageRequired(f, _) => f !in v.images
  }

  /** The messages of the failing rules, in schema order. */
  function Validate(v: ProductValues, rules: seq<Rule>): (messages: seq<string>)
    ensures |messages| <= |rules|
    ensures messages == [] <==> forall i :: 0 <= i < |rules| ==> !Fails(v, rules[i])
    ensures forall i :: 0 <= i < |rules| && Fails(v, rules[i]) ==> rules[i].message in messages
    ensures forall m :: m in messages ==> exists i :: 0 <= i < |rules| && Fails(v, rules[i]) && rules[i].message == m
  {
    if rules == [] then []
    else
      var rest := Validate(v, rules[1..]);
      assert forall i :: 1 <= i < |rules| ==> rules[i] == rules[1..][i - 1];
      (if Fails(v, rules[0]) then [rules[0].message] else []) + rest
  }

  /** The schema checks the seven text fields, then the three image fields,
      each in its fixed order. */
  lemma SchemaFields()
    ensures |Schema| == |TextFields| + |ImageFields|
    ensures forall i :: 0 <= i < |TextFields| ==> Schema[i].TextRequired? && Schema[i].field == TextFields[i]
    ensures forall i :: 0 <= i < |ImageFields| ==>
      Schema[|TextFields| + i].ImageRequired? && Schema[|TextFields| + i].field == ImageFields[i]
  {
  }

  /** The dialog submits only with all seven texts non-empty and all three
      image fields present. */
  lemma SchemaRequiresAll(v: ProductValues)
    ensures Validate(v, Schema) == [] <==>
      (forall k :: k in TextFields ==> k in v.texts && v.texts[k] != "")
      && (forall k :: k in ImageFields ==> k in v.images)
  {
    SchemaFields();
    if Validate(v, Schema) == [] {
      forall k | k in TextFields ensures k in v.texts && v.texts[k] != "" {
        var j :| 0 <= j < |TextFields| && TextFields[j] == k;
        assert !Fails(v, Schema[j]);
      }
      forall k | k in ImageFields ensures k in v.images {
        var j :| 0 <= j < |ImageFields| && ImageFields[j] == k;
        assert !Fails(v, Schema[|TextFields| + j]);
      }
    }
    if (forall k :: k in TextFields ==> k in v.texts && v.texts[k] != "")
      && (forall k :: k in ImageFields ==> k in v.images)
    {
      forall i | 0 <= i < |Schema| ensures !Fails(v, Schema[i]) {
        if i < |TextFields| {
          assert TextFields[i] in TextFields;
        } else {
          assert ImageFields[i - |TextFields|] in ImageFields;
        }
      }
    }
  }

  // ----------------------------------------------------------------------
  // The multipart body
  // ----------------------------------------------------------------------

  /** A multipart value: a text, or a file. */
  datatype FormValue = TextValue(text: string) | FileValue(file: File)

  datatype Entry = Entry(key: string, value: FormValue)

  /** `data[key] || ""` */
  function TextOf(v: ProductValues, key: string): string
  {
    if key in v.texts then v.texts[key] else ""
  }

  /** `data[key][0]`: the first file; with an empty list `undefined`, which
      the body carries as the text "undefined". */
  function FirstFile(files: seq<File>): FormValue
  {
    if files == [] then TextValue("undefined") else FileValue(files[0])
  }

  function Keys(entries: seq<Entry>): (keys: seq<string>)
    ensures |keys| == |entries|
    ensures forall i :: 0 <= i < |entries| ==> keys[i] == entries[i].key
  {
    seq(|entries|, i requires 0 <= i < |entries| => entries[i].key)
  }

  /** The body `onSubmit` builds: the seven text fields in their fixed
      order, a missing or empty one as "", then the three images in their
      fixed order, each as its first file. Reading `[0]` of a missing image
      field would throw; the schema has already ruled that out. */
  method BuildFormData(v: ProductValues) returns (entries: seq<Entry>)
    requires forall k :: k in ImageFields ==> k in v.images
    ensures |entries| == |TextFields| + |ImageFields|
    ensures Keys(entries) == TextFields + ImageFields
    ensures forall i :: 0 <= i < |TextFields| ==> entries[i].value == TextValue(TextOf(v, TextFields[i]))
    ensures forall i :: 0 <= i < |ImageFields| ==>
      entries[|TextFields| + i].value == FirstFile(v.images[ImageFields[i]])
  {
    entries := [];
    var i := 0;
    while i < |TextFields|
      invariant 0 <= i <= |TextFields|
      invariant |entries| == i
      invariant forall j :: 0 <= j < i ==> entries[j] == Entry(TextFields[j], TextValue(TextOf(v, TextFields[j])))
    {
      var key := TextFields[i];
      entries := entries + [Entry(key, TextValue(TextOf(v, key)))];
      i := i + 1;
    }
    var n := 0;
    while n < |ImageFields|
      invariant 0 <= n <= |ImageFields|
      invariant |entries| == |TextFields| + n
      invariant forall j :: 0 <= j < |TextFields| ==> entries[j] == Entry(TextFields[j], TextValue(TextOf(v, TextFields[j])))
      invariant forall j :: 0 <= j < n ==>
        entries[|TextFields| + j] == Entry(ImageFields[j], FirstFile(v.images[ImageFields[j]]))
    {
      var key := ImageFields[n];
      assert key in ImageFields;
      entries := entries + [Entry(key, FirstFile(v.images[key]))];
      n := n + 1;
    }
    assert Keys(entries) == TextFields + ImageFields by {
      forall j | 0 <= j < |entries| ensures Keys(entries)[j] == (TextFields + ImageFields)[j] {
        if j >= |TextFields| {
          assert entries[j] == Entry(ImageFields[j - |TextFields|], FirstFile(v.images[ImageFields[j - |TextFields|]]));
        }
      }
    }
  }

  /** The request the mutation sends: a PUT to the product being edited, a
      POST otherwise. */
  function ProductRequest(api: string, productToEdit: Option<string>, body: seq<Entry>): (r: Request<seq<Entry>>)
    ensures r.body == body
    ensures r.verb == Put <==> productToEdit.Some?
    ensures productToEdit.Some? ==> r.url == api + "/products/" + productToEdit.value
    ensures productToEdit.None? ==> r.verb == Post && r.url == api + "/products"
  {
    match productToEdit
    case Some(id) => Request(Put, api + "/products/" + id, body)
    case None => Request(Post, api + "/products", body)
  }

  /** Without `VITE_API_URL` the fallback already ends in "/products", so a
      new product is posted to ".../api/products/products". */
  lemma DefaultUrlRepeatsSegment(body: seq<Entry>)
    ensures ProductRequest(ApiUrl(None), None, body).url == "http://localhost:5000/api/products/products"
  {
  }

  // ----------------------------------------------------------------------
  // The dialog's state
  // ----------------------------------------------------------------------

  /** The preview map before any image is picked: every image field null. */
  function NoPreviews(): map<string, Option<string>>
  {
    map k | k in ImageFields :: None
  }

  class ProductDialog {
    var uploading: bool
    var previewImages: map<string, Option<string>>
    /** The values react-hook-form holds for the registered inputs. */
    var values: ProductValues

    /** The dialog opens with the values the inputs had when they were
        registered. */
    constructor(initial: ProductValues)
      ensures !uploading && previewImages == NoPreviews() && values == initial
    {
      uploading := false;
      previewImages := NoPreviews();
      values := initial;
    }

    /** Typing into a registered text input: `register`'s own `onChange`
        stores the text under that field. */
    method InputText(key: string, text: string)
      requires key in TextFields
      modifies this
      ensures values == old(values).(texts := old(values).texts[key := text])
      ensures TextOf(values, key) == text
      ensures forall k :: k != key ==> TextOf(values, k) == TextOf(old(values), k)
      ensures uploading == old(uploading) && previewImages == old(previewImages)
    {
      values := values.(texts := values.texts[key := text]);
    }

    /** `handleImageChange`: with a file, only that key's preview becomes the
        file's object URL; without one, nothing changes. The file input's
        `onChange` replaces the one `register` supplies, so the picked file
        never reaches the form values. */
    method HandleImageChange(key: string, files: seq<File>, objectUrl: string)
      modifies this
      ensures files != [] ==> previewImages == old(previewImages)[key := Some(objectUrl)]
      ensures files == [] ==> previewImages == old(previewImages)
      ensures forall k :: k in old(previewImages) && k != key ==> k in previewImages && previewImages[k] == old(previewImages)[k]
      ensures values == old(values)
      ensures uploading == old(uploading)
    {
      if files != [] {
        previewImages := previewImages[key := Some(objectUrl)];
      }
    }

    /** The start of `onSubmit`: the upload indicator goes on and the body
        is built from the form values; the request is a PUT to the edited
        product or a POST to the collection. */
    method BeginSubmit(api: string, productToEdit: Option<string>) returns (request: Request<seq<Entry>>)
      requires forall k :: k in ImageFields ==> k in values.images
      modifies this
      ensures uploading && previewImages == old(previewImages) && values == old(values)
      ensures request.verb == (if productToEdit.Some? then Put else Post)
      ensures request.url == (if productToEdit.Some? then api + "/products/" + productToEdit.value else api + "/products")
      ensures Keys(request.body) == TextFields + ImageFields
      ensures forall i :: 0 <= i < |TextFields| ==> request.body[i].value == TextValue(TextOf(values, TextFields[i]))
      ensures forall i :: 0 <= i < |ImageFields| ==>
        request.body[|TextFields| + i].value == FirstFile(values.images[ImageFields[i]])
    {
      uploading := true;
      var entries := BuildFormData(values);
      request := ProductRequest(api, productToEdit, entries);
    }

    /** The `finally` of `onSubmit`: the indicator goes off whatever the
        outcome; the dialog is closed only on success. */
    method FinishSubmit(succeeded: bool) returns (close: bool)
      modifies this
      ensures !uploading && previewImages == old(previewImages) && values == old(values)
      ensures close == succeeded
    {
      uploading := false;
      close := succeeded;
    }
  }

  /** Picking a file changes only the preview: a dialog opened with no file
      in an image input sends "undefined" for that image whatever is picked
      afterwards. */
  method PickedFileNotSent(initial: ProductValues, api: string, file: File) returns (request: Request<seq<Entry>>)
    requires forall k :: k in ImageFields ==> k in initial.images && initial.images[k] == []
    ensures |request.body| == |TextFields| + |ImageFields|
    ensures forall i :: |TextFields| <= i < |request.body| ==> request.body[i].value == TextValue("undefined")
  {
    var dialog := new ProductDialog(initial);
    dialog.HandleImageChange("product_image", [file], "blob:preview");
    request := dialog.BeginSubmit(api, None);
    assert |Keys(request.body)| == |TextFields + ImageFields|;
    forall i | |TextFields| <= i < |request.body|
      ensures request.body[i].value == TextValue("undefined")
    {
      var j := i - |TextFields|;
      assert ImageFields[j] in ImageFields;
    }
  }
}
