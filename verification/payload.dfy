/**
  The request validator of the shipping-label handler and the typed request
  record the handler reads once the body has passed it.
*/
module Payload {
  import opened JsValues

  datatype ReturnAddress = ReturnAddress(
    company: string, address: string, zipCode: string, city: string, country: string)

  datatype LabelRequest = LabelRequest(
    returnAddress: ReturnAddress, order: string, name: string, language: string)

  /** `key` is present in `props` and holds a string. */
  predicate StringAt(props: map<string, JsValue>, key: string)
  {
    key in props && props[key].Str?
  }

  /** `key` is present in `props` and holds a non-empty string. */
  predicate NonEmptyStringAt(props: map<string, JsValue>, key: string)
  {
    StringAt(props, key) && props[key].s != ""
  }

  /**
    Declarative description of an acceptable body: an object whose
    `return_address` is an object with five string fields, whose `order` and
    `name` are non-empty strings and whose `language` is a string, possibly empty.
  */
  predicate WellShaped(v: JsValue)
  {
    && v.Obj?
    && "return_address" in v.properties
    && v.properties["return_address"].Obj?
    && StringAt(v.properties["return_address"].properties, "company")
    && StringAt(v.properties["return_address"].properties, "address")
    && StringAt(v.properties["return_address"].properties, "zip_code")
    && StringAt(v.properties["return_address"].properties, "city")
    && StringAt(v.properties["return_address"].properties, "country")
    && NonEmptyStringAt(v.properties, "order")
    && NonEmptyStringAt(v.properties, "name")
    && StringAt(v.properties, "language")
  }

  /**
    `isValidPayload`: first the value must be truthy and of type "object",
    then `return_address`, `order` and `name` must be truthy, then the five
    address fields, `order`, `name` and `language` must all be strings.
  */
  function IsValidPayload(payload: JsValue): (valid: bool)
    ensures valid <==> WellShaped(payload)
  {
    if !Truthy(payload) || TypeOf(payload) != ObjectType then
      false
    else if !Truthy(Get(payload, "return_address")) || !Truthy(Get(payload, "order"))
            || !Truthy(Get(payload, "name")) then
      false
    else
      var address := Get(payload, "return_address");
      if TypeOf(Get(address, "company")) != StringType
         || TypeOf(Get(address, "address")) != StringType
         || TypeOf(Get(address, "zip_code")) != StringType
         || TypeOf(Get(address, "city")) != StringType
         || TypeOf(Get(address, "country")) != StringType
         || TypeOf(Get(payload, "order")) != StringType
         || TypeOf(Get(payload, "name")) != StringType
         || TypeOf(Get(payload, "language")) != StringType
      then
        false
      else
        true
  }

  /** The JSON body a client sends for `req`. */
  function FromRequest(req: LabelRequest): JsValue
  {
    var a := req.returnAddress;
    Obj(map[
      "return_address" := Obj(map[
        "company" := Str(a.company),
        "address" := Str(a.address),
        "zip_code" := Str(a.zipCode),
        "city" := Str(a.city),
        "country" := Str(a.country)]),
      "order" := Str(req.order),
      "name" := Str(req.name),
      "language" := Str(req.language)])
  }

  /** The eight fields the handler reads agree between `v` and `w`. */
  predicate SameFields(v: JsValue, w: JsValue)
    requires WellShaped(v) && WellShaped(w)
  {
    var a := v.properties["return_address"].properties;
    var b := w.properties["return_address"].properties;
    && a["company"] == b["company"]
    && a["address"] == b["address"]
    && a["zip_code"] == b["zip_code"]
    && a["city"] == b["city"]
    && a["country"] == b["country"]
    && v.properties["order"] == w.properties["order"]
    && v.properties["name"] == w.properties["name"]
    && v.properties["language"] == w.properties["language"]
  }

  /**
    The `payload as Payload` view the handler uses after validation: the
    record read back as a client body is valid and carries exactly the
    fields of the original body.
  */
  function ToRequest(payload: JsValue): (req: LabelRequest)
    requires IsValidPayload(payload)
    ensures IsValidPayload(FromRequest(req))
    ensures SameFields(FromRequest(req), payload)
  {
    var p := payload.properties;
    var a := p["return_address"].properties;
    LabelRequest(
      ReturnAddress(a["company"].s, a["address"].s, a["zip_code"].s, a["city"].s, a["country"].s),
      p["order"].s, p["name"].s, p["language"].s)
  }

  /**
    A typed request survives the trip through its JSON body exactly when its
    order and name are non-empty; the language may be empty.
  */
  lemma RequestRoundTrip(req: LabelRequest)
    ensures IsValidPayload(FromRequest(req)) <==> req.order != "" && req.name != ""
    ensures IsValidPayload(FromRequest(req)) ==> ToRequest(FromRequest(req)) == req
  {
  }

  /** Anything that is not a truthy value of type "object" is rejected. */
  lemma RejectsNonObjects(payload: JsValue)
    requires !Truthy(payload) || TypeOf(payload) != ObjectType
    ensures !IsValidPayload(payload)
  {
  }

  /**
    A falsy `return_address`, `order` or `name` rejects the body, so an
    empty-string order or name is refused.
  */
  lemma RejectsFalsyRequiredField(payload: JsValue, key: string)
    requires payload.Obj?
    requires key == "return_address" || key == "order" || key == "name"
    requires !Truthy(Get(payload, key))
    ensures !IsValidPayload(payload)
  {
  }

  /** A string field of the wrong type (here a number) rejects the body. */
  lemma RejectsNonStringField(payload: JsValue, key: string, n: real)
    requires payload.Obj?
    requires key == "order" || key == "name" || key == "language"
    ensures !IsValidPayload(Obj(payload.properties[key := Num(n)]))
  {
  }

  /** An address field of the wrong type (here a number) rejects the body. */
  lemma RejectsNonStringAddressField(payload: JsValue, key: string, n: real)
    requires payload.Obj? && "return_address" in payload.properties
    requires payload.properties["return_address"].Obj?
    requires key in {"company", "address", "zip_code", "city", "country"}
    ensures var address := payload.properties["return_address"].properties;
            !IsValidPayload(Obj(payload.properties["return_address" := Obj(address[key := Num(n)])]))
  {
  }

  /** Emptying the language of a valid body keeps it valid. */
  lemma EmptyLanguageAccepted(payload: JsValue)
    requires IsValidPayload(payload)
    ensures IsValidPayload(Obj(payload.properties["language" := Str("")]))
  {
  }

  /** The return address the validator's unit tests use. */
  function TestAddress(): JsValue
  {
    Obj(map["company" := Str("Company"), "address" := Str("Address"),
            "zip_code" := Str("12345"), "city" := Str("City"), "country" := Str("Country")])
  }

  /** The unit tests' bodies that are not objects, or an object without fields, are rejected. */
  lemma RejectsTestNonPayloads()
    ensures !IsValidPayload(Null)
    ensures !IsValidPayload(Str("not an object"))
    ensures !IsValidPayload(Obj(map[]))
  {
  }

  /** The unit tests' body whose order is a number is rejected. */
  lemma RejectsTestNumericOrder()
    ensures !IsValidPayload(Obj(map[
              "return_address" := TestAddress(), "order" := Num(123.0),
              "name" := Str("Name"), "language" := Str("Language")]))
  {
  }

  /** The unit tests' complete body is accepted, although its language is empty. */
  lemma AcceptsTestPayload()
    ensures IsValidPayload(Obj(map[
              "return_address" := TestAddress(), "order" := Str("Order"),
              "name" := Str("Name"), "language" := Str("")]))
  {
  }
}
