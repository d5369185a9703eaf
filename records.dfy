/**
 * The closed set of record kinds a lookup can ask for, their integer
 * codes, the conversion from a host-supplied integer, and the `records`
 * table that exposes each kind's name and code to Lua.
 */
module Records {
  import opened Wrappers
  import opened Lua

  datatype GeoIPRecord = AnonymousIp | Asn | City | ConnectionType | Country | DensityIncome | Domain | Isp

  /** The declaration order of the kinds; the i-th kind has discriminant i. */
  const ALL: seq<GeoIPRecord> := [AnonymousIp, Asn, City, ConnectionType, Country, DensityIncome, Domain, Isp]

  /** `record as isize`: the first kind is 0 and each next one is one more. */
  function Code(r: GeoIPRecord): (c: int)
    ensures 0 <= c < |ALL| && ALL[c] == r
  {
    match r
    case AnonymousIp => 0
    case Asn => 1
    case City => 2
    case ConnectionType => 3
    case Country => 4
    case DensityIncome => 5
    case Domain => 6
    case Isp => 7
  }

  /**
   * `stringify!` of the kind's identifier: a non-empty ASCII word that
   * names this kind and no other.
   */
  function Name(r: GeoIPRecord): (n: string)
    ensures n != [] && forall k :: 0 <= k < |n| ==> 'A' <= n[k] <= 'Z' || 'a' <= n[k] <= 'z'
    ensures FromName(n) == Some(r)
  {
    match r
    case AnonymousIp => "AnonymousIp"
    case Asn => "Asn"
    case City => "City"
    case ConnectionType => "ConnectionType"
    case Country => "Country"
    case DensityIncome => "DensityIncome"
    case Domain => "Domain"
    case Isp => "Isp"
  }

  /** The fields, in push order, of the record a lookup of each kind yields. */
  function Schema(r: GeoIPRecord): seq<string> {
    match r
    case AnonymousIp => ["is_anonymous", "is_anonymous_vpn", "is_hosting_provider", "is_public_proxy", "is_tor_exit_node"]
    case Asn => ["autonomous_system_number", "autonomous_system_organization"]
    case City => ["city", "continent", "country", "location", "postal", "registered_country",
                  "represented_country", "subdivisions", "traits"]
    case ConnectionType => ["connection_type"]
    case Country => ["country", "continent", "registered_country", "represented_country", "traits"]
    case DensityIncome => ["population_density", "average_income"]
    case Domain => ["domain"]
    case Isp => ["autonomous_system_number", "autonomous_system_organization", "isp", "organization"]
  }

  /**
   * `GeoIPRecord::try_from`: the kind whose discriminant is `value`, or
   * the value itself as the error when no kind has it.
   */
  function TryFrom(value: int): (r: Result<GeoIPRecord, int>)
    ensures r.Ok? <==> 0 <= value < |ALL|
    ensures r.Ok? ==> r.value == ALL[value]
    ensures r.Err? ==> r.error == value
  {
    if value == Code(AnonymousIp) then Ok(AnonymousIp)
    else if value == Code(Asn) then Ok(Asn)
    else if value == Code(City) then Ok(City)
    else if value == Code(ConnectionType) then Ok(ConnectionType)
    else if value == Code(Country) then Ok(Country)
    else if value == Code(DensityIncome) then Ok(DensityIncome)
    else if value == Code(Domain) then Ok(Domain)
    else if value == Code(Isp) then Ok(Isp)
    else Err(value)
  }

  /** Converting a kind to its code and back gives the kind; distinct kinds have distinct codes. */
  lemma RoundTrip(r: GeoIPRecord, s: GeoIPRecord)
    ensures TryFrom(Code(r)) == Ok(r)
    ensures Code(r) == Code(s) ==> r == s
  {
  }

  /** The `records` table: one set_field per kind, in declaration order, binding its name to its code. */
  function RecordsTable(): LuaValue {
    Table(0, 0, RecordStores(|ALL|))
  }

  /** The stores for the first `n` kinds. */
  function RecordStores(n: nat): (r: seq<Store>)
    requires n <= |ALL|
    ensures |r| == n
  {
    seq(n, i requires 0 <= i < n => FieldSet(Name(ALL[i]), Integer(Code(ALL[i]))))
  }

  /**
   * Every `records` entry binds a kind's name to a code that `try_from`
   * maps back to that same kind, each kind's entry sits at its code, and no
   * two entries share a name.
   */
  lemma RecordsTableBinds()
    ensures var t := RecordsTable();
            && t.Table? && |t.stores| == |ALL|
            && (forall i :: 0 <= i < |t.stores| ==>
                  && t.stores[i].FieldSet? && t.stores[i].value.Integer?
                  && TryFrom(t.stores[i].value.i).Ok?
                  && Name(TryFrom(t.stores[i].value.i).value) == t.stores[i].name)
            && (forall r :: Code(r) < |t.stores| && t.stores[Code(r)] == FieldSet(Name(r), Integer(Code(r))))
            && (forall i, j :: 0 <= i < j < |t.stores| ==> t.stores[i].name != t.stores[j].name)
  {
    var t := RecordsTable();
    forall i | 0 <= i < |t.stores|
      ensures t.stores[i] == FieldSet(Name(ALL[i]), Integer(i)) && TryFrom(i) == Ok(ALL[i])
    {
      CodeAt(i);
    }
    forall i, j | 0 <= i < j < |t.stores|
      ensures t.stores[i].name != t.stores[j].name
    {
      CodeAt(i);
      CodeAt(j);
    }
  }

  lemma CodeAt(i: int)
    requires 0 <= i < |ALL|
    ensures Code(ALL[i]) == i
  {
  }

  /** The kind a `records` key names, if any. */
  function FromName(s: string): Option<GeoIPRecord> {
    if s == "AnonymousIp" then Some(AnonymousIp)
    else if s == "Asn" then Some(Asn)
    else if s == "City" then Some(City)
    else if s == "ConnectionType" then Some(ConnectionType)
    else if s == "Country" then Some(Country)
    else if s == "DensityIncome" then Some(DensityIncome)
    else if s == "Domain" then Some(Domain)
    else if s == "Isp" then Some(Isp)
    else None
  }

  /** Pushes the `records` table: one new table, then each kind's code stored under its name. */
  method PushRecordsTable(lua: LuaState)
    modifies lua
    ensures lua.stack == old(lua.stack) + [RecordsTable()]
  {
    ghost var below := lua.stack;
    lua.NewTable();
    var i := 0;
    while i < |ALL|
      invariant 0 <= i <= |ALL|
      invariant lua.stack == below + [Table(0, 0, RecordStores(i))]
    {
      lua.PushInteger(Code(ALL[i]));
      lua.SetField(-2, Name(ALL[i]));
      assert RecordStores(i + 1) == RecordStores(i) + [FieldSet(Name(ALL[i]), Integer(Code(ALL[i])))];
      i := i + 1;
    }
  }
}
