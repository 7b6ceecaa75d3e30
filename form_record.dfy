/** The form's record of field values and the names of its fields. */
module FormRecord {

  /** The `name` attribute of each input, which is the key `handleChange` writes. */
  datatype Field =
    | Name | Email | Phone
    | AddressLine1 | AddressLine2 | City | State | ZipCode

  /** The form record: every field holds text. */
  datatype FormData = FormData(
    name: string, email: string, phone: string,
    addressLine1: string, addressLine2: string,
    city: string, state: string, zipCode: string)
  {
    /** `formData[f]`. */
    function Get(f: Field): string {
      match f
      case Name => name
      case Email => email
      case Phone => phone
      case AddressLine1 => addressLine1
      case AddressLine2 => addressLine2
      case City => city
      case State => state
      case ZipCode => zipCode
    }

    /** `{ ...formData, [f]: v }`: the record with one field replaced. */
    function With(f: Field, v: string): (r: FormData)
      ensures r.Get(f) == v
      ensures forall g :: g != f ==> r.Get(g) == Get(g)
    {
      match f
      case Name => this.(name := v)
      case Email => this.(email := v)
      case Phone => this.(phone := v)
      case AddressLine1 => this.(addressLine1 := v)
      case AddressLine2 => this.(addressLine2 := v)
      case City => this.(city := v)
      case State => this.(state := v)
      case ZipCode => this.(zipCode := v)
    }
  }

  /** The record a fresh form starts from and a completed submission resets to. */
  function Empty(): (d: FormData)
    ensures forall f :: d.Get(f) == ""
  {
    FormData("", "", "", "", "", "", "", "")
  }

  /** Two records that agree on every field are the same record. */
  lemma Extensionality(d: FormData, e: FormData)
    requires forall f :: d.Get(f) == e.Get(f)
    ensures d == e
  {
    assert d.Get(Name) == e.Get(Name) && d.Get(Email) == e.Get(Email);
    assert d.Get(Phone) == e.Get(Phone) && d.Get(AddressLine1) == e.Get(AddressLine1);
    assert d.Get(AddressLine2) == e.Get(AddressLine2) && d.Get(City) == e.Get(City);
    assert d.Get(State) == e.Get(State) && d.Get(ZipCode) == e.Get(ZipCode);
  }

  /** Writing back the value a field already holds changes nothing, and a
      second write to the same field overrides the first. */
  lemma WithLaws(d: FormData, f: Field, v: string, w: string)
    ensures d.With(f, d.Get(f)) == d
    ensures d.With(f, v).With(f, w) == d.With(f, w)
  {
    Extensionality(d.With(f, d.Get(f)), d);
    Extensionality(d.With(f, v).With(f, w), d.With(f, w));
  }
}
