/**
 * The customer form: four text fields edited one at a time, and a submit
 * that checks the key and the fields, prefixes the group nickname with `@`,
 * sends the customer and clears the form.
 */
module Customer {
  import Api

  datatype FormData = FormData(name: string, nickName: string, phone: string, address: string)

  /** The `name` attributes of the four inputs. */
  datatype FormField = Name | NickName | Phone | Address

  const EmptyForm := FormData("", "", "", "")

  function Get(d: FormData, f: FormField): string {
    match f
    case Name => d.name
    case NickName => d.nickName
    case Phone => d.phone
    case Address => d.address
  }

  /** The form after one input changed: the named field takes the value, the rest stay. */
  function WithField(d: FormData, f: FormField, v: string): (r: FormData)
    ensures Get(r, f) == v
    ensures forall g :: g != f ==> Get(r, g) == Get(d, g)
  {
    match f
    case Name => d.(name := v)
    case NickName => d.(nickName := v)
    case Phone => d.(phone := v)
    case Address => d.(address := v)
  }

  /** Some field of the form is left empty. */
  predicate AnyEmpty(d: FormData) {
    d.name == "" || d.nickName == "" || d.phone == "" || d.address == ""
  }

  /** The check looks at every field of the form and at nothing else. */
  lemma AnyEmptyMeansSomeField(d: FormData)
    ensures AnyEmpty(d) <==> exists f :: Get(d, f) == ""
  {
    if AnyEmpty(d) {
      var f := if d.name == "" then Name else if d.nickName == "" then NickName else if d.phone == "" then Phone else Address;
      assert Get(d, f) == "";
    }
  }

  predicate StartsWithAt(s: string) {
    |s| > 0 && s[0] == '@'
  }

  /** The nickname as sent: prefixed with `@` unless it already starts with one. */
  function NormalizeNick(s: string): (r: string)
    ensures StartsWithAt(r)
    ensures StartsWithAt(s) ==> r == s
    ensures !StartsWithAt(s) ==> r == "@" + s
  {
    if StartsWithAt(s) then s else "@" + s
  }

  /** Normalising twice is normalising once. */
  lemma NormalizeIdempotent(s: string)
    ensures NormalizeNick(NormalizeNick(s)) == NormalizeNick(s)
  {
  }

  /** The payload: the form with its nickname normalised; the other fields unchanged. */
  function PayloadOf(d: FormData): (p: Api.CustomerPayload)
    ensures p.name == d.name && p.phone == d.phone && p.address == d.address
    ensures StartsWithAt(p.nickName)
    ensures p.nickName == d.nickName || p.nickName == "@" + d.nickName
    ensures p.nickName == NormalizeNick(d.nickName)
    ensures StartsWithAt(d.nickName) ==> p.nickName == d.nickName
  {
    Api.CustomerPayload(d.name, NormalizeNick(d.nickName), d.phone, d.address)
  }

  datatype SubmitResult = NoApiKey | MissingField | Created(payload: Api.CustomerPayload)

  class CustomerForm {
    var formData: FormData
    var loading: bool

    constructor()
      ensures formData == EmptyForm && !loading
    {
      formData := EmptyForm;
      loading := false;
    }

    /** `handleChange`: the named field takes the value; the other three keep theirs. */
    method HandleChange(f: FormField, v: string)
      modifies this`formData
      ensures Get(formData, f) == v
      ensures forall g :: g != f ==> Get(formData, g) == Get(old(formData), g)
    {
      formData := WithField(formData, f, v);
    }

    /**
     * `handleSubmit`: refused without a key or with an empty field, in that
     * order, and then nothing is sent; otherwise the customer is sent once and
     * the form is cleared. The transport's outcome does not matter.
     */
    method HandleSubmit(apiKey: string, backend: Api.Backend, transportOk: bool) returns (r: SubmitResult)
      requires !loading
      modifies this`formData, this`loading, backend`customers
      ensures !loading
      ensures r == NoApiKey <==> apiKey == ""
      ensures r == MissingField <==> apiKey != "" && AnyEmpty(old(formData))
      ensures !r.Created? ==> formData == old(formData) && backend.customers == old(backend.customers)
      ensures r.Created? ==>
        && r.payload == PayloadOf(old(formData))
        && backend.customers == old(backend.customers) + [Api.Request(r.payload, apiKey)]
        && formData == EmptyForm
    {
      if apiKey == "" {
        return NoApiKey;
      }
      if AnyEmpty(formData) {
        return MissingField;
      }
      loading := true;
      var payload := PayloadOf(formData);
      var status := backend.CreateCustomer(payload, apiKey, transportOk);
      formData := EmptyForm;
      loading := false;
      r := Created(payload);
    }
  }
}
