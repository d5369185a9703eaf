/**
 * The PushToLua trait: how a geoip2 record becomes one Lua value on the
 * stack. The Rust types that implement the trait are the alternatives of
 * `Pushable`; the value each one pushes is `Encode`, and the method
 * `PushToLua` performs the same pushes and stores through the Lua API.
 */
module Serialize {
  import opened Wrappers
  import opened Prims
  import opened NameTable
  import opened Lua
  import M = GeoModel
  import G = GeoIP2

  datatype Pushable =
    | PStr(s: string)                              // &str
    | PBool(b: bool)                               // bool
    | PU32(u: U32)                                 // u32
    | PF64(f: F64)                                 // f64
    | PU16(h: U16)                                 // u16
    | POption(o: Option<Pushable>)                 // Option<T>
    | PMap(entries: seq<(Pushable, Pushable)>)     // BTreeMap<K, V>, in iteration order
    | PVec(items: seq<Pushable>)                   // Vec<T>
    | PStruct(fields: seq<(string, Pushable)>)     // a push_struct_to_lua! field list

  /** The length a Vec of `len` elements is pushed with: `len.min(i32::MAX)`. */
  function VecLen(len: nat): (n: nat)
    ensures n <= len && n <= I32_MAX
    ensures n == len || n == I32_MAX
  {
    Min(len, I32_MAX)
  }

  /**
   * The Lua value that pushing `v` leaves on top of the stack. Only an
   * absent Option pushes nil; every table is created with no record-size
   * hint and an array-size hint of at most i32::MAX; push_integer only
   * ever receives a u32, and a number made from an integer is a u16.
   */
  function Encode(v: Pushable): (r: LuaValue)
    ensures r.Nil? ==> v.POption?
    ensures r.Table? ==> 0 <= r.narr <= I32_MAX && r.nrec == 0
    ensures r.Integer? ==> 0 <= r.i < 0x1_0000_0000
    ensures r.Number? && r.n.Whole? ==> 0 <= r.n.n < 0x1_0000
    decreases v, 1
  {
    match v
    case PStr(s) => Str(s)
    case PBool(b) => Boolean(b)
    case PU32(u) => Integer(u as int)
    case PF64(f) => Number(Float(f.bits))
    case PU16(h) => Number(Whole(h as int))
    case POption(o) => if o.Some? then Encode(o.value) else Nil
    case PMap(es) => Table(0, 0, MapStores(es, |es|))
    case PVec(items) => Table(VecLen(|items|), 0, VecStores(items, VecLen(|items|)))
    case PStruct(fs) => Table(0, 0, StructStores(fs, |fs|))
  }

  /** The stores made for the first `n` map entries: t[k] = v each. */
  function MapStores(es: seq<(Pushable, Pushable)>, n: nat): (r: seq<Store>)
    requires n <= |es|
    ensures |r| == n
    decreases PMap(es), 0
  {
    seq(n, i requires 0 <= i < n => TableSet(Encode(es[i].0), Encode(es[i].1)))
  }

  /** The stores made for the first `n` Vec elements: t[i + 1] = items[i] each. */
  function VecStores(items: seq<Pushable>, n: nat): (r: seq<Store>)
    requires n <= |items|
    ensures |r| == n
    decreases PVec(items), 0
  {
    seq(n, i requires 0 <= i < n => RawIndexSet(i + 1, Encode(items[i])))
  }

  /** The stores made for the first `n` struct fields: t.field = value each. */
  function StructStores(fs: seq<(string, Pushable)>, n: nat): (r: seq<Store>)
    requires n <= |fs|
    ensures |r| == n
    decreases PStruct(fs), 0
  {
    seq(n, i requires 0 <= i < n => FieldSet(fs[i].0, Encode(fs[i].1)))
  }

  /**
   * Pushes `v` onto the Lua stack: the stack grows by exactly one value,
   * that value is `Encode(v)`, and nothing below it changes.
   */
  method PushToLua(lua: LuaState, v: Pushable)
    modifies lua
    ensures lua.stack == old(lua.stack) + [Encode(v)]
    decreases v, 1
  {
    match v {
      case PStr(s) => lua.PushString(s);
      case PBool(b) => lua.PushBoolean(b);
      case PU32(u) => lua.PushInteger(u as int);
      case PF64(f) => lua.PushNumber(Float(f.bits));
      case PU16(h) => lua.PushNumber(Whole(h as int));
      case POption(o) =>
        if o.Some? {
          PushToLua(lua, o.value);
        } else {
          lua.PushNil();
        }
      case PMap(es) => PushMap(lua, es);
      case PVec(items) => PushVec(lua, items);
      case PStruct(fs) => PushStruct(lua, fs);
    }
  }

  /** A BTreeMap: one new table, then one settable per entry, in iteration order. */
  method PushMap(lua: LuaState, es: seq<(Pushable, Pushable)>)
    modifies lua
    ensures lua.stack == old(lua.stack) + [Table(0, 0, MapStores(es, |es|))]
    decreases PMap(es), 0
  {
    lua.NewTable();
    var i := 0;
    while i < |es|
      invariant 0 <= i <= |es|
      invariant lua.stack == old(lua.stack) + [Table(0, 0, MapStores(es, i))]
    {
      assert es[i] in es;
      PushToLua(lua, es[i].0);
      PushToLua(lua, es[i].1);
      lua.SetTable(-3);
      assert MapStores(es, i + 1) == MapStores(es, i) + [TableSet(Encode(es[i].0), Encode(es[i].1))];
      i := i + 1;
    }
  }

  /**
   * A Vec: a table pre-sized for min(len, i32::MAX) elements, then that many
   * elements stored at indices 1, 2, ..., in order.
   */
  method PushVec(lua: LuaState, items: seq<Pushable>)
    modifies lua
    ensures lua.stack == old(lua.stack) + [Table(VecLen(|items|), 0, VecStores(items, VecLen(|items|)))]
    decreases PVec(items), 0
  {
    var len := VecLen(|items|);
    lua.CreateTable(len, 0);
    var i := 0;
    while i < len
      invariant 0 <= i <= len
      invariant lua.stack == old(lua.stack) + [Table(len, 0, VecStores(items, i))]
    {
      PushToLua(lua, items[i]);
      lua.RawSetI(-2, i + 1);
      assert VecStores(items, i + 1) == VecStores(items, i) + [RawIndexSet(i + 1, Encode(items[i]))];
      i := i + 1;
    }
  }

  /** push_struct_to_lua!: one new table, then one set_field per field, in the listed order. */
  method PushStruct(lua: LuaState, fs: seq<(string, Pushable)>)
    modifies lua
    ensures lua.stack == old(lua.stack) + [Table(0, 0, StructStores(fs, |fs|))]
    decreases PStruct(fs), 0
  {
    lua.NewTable();
    var i := 0;
    while i < |fs|
      invariant 0 <= i <= |fs|
      invariant lua.stack == old(lua.stack) + [Table(0, 0, StructStores(fs, i))]
    {
      assert fs[i] in fs;
      PushToLua(lua, fs[i].1);
      lua.SetField(-2, fs[i].0);
      assert StructStores(fs, i + 1) == StructStores(fs, i) + [FieldSet(fs[i].0, Encode(fs[i].1))];
      i := i + 1;
    }
  }

  // Reading a pushed table back

  /**
   * The values written by raw_seti stores at indices 1, 2, ..., in that
   * order; None if the stores are anything else.
   */
  function ArrayPart(stores: seq<Store>): Option<seq<LuaValue>>
    decreases |stores|
  {
    if stores == [] then Some([])
    else
      var last := stores[|stores| - 1];
      match ArrayPart(stores[..|stores| - 1])
      case None => None
      case Some(vs) => if last.RawIndexSet? && last.index == |stores| then Some(vs + [last.value]) else None
  }

  /** The string pairs written by settable stores with string keys and values; None otherwise. */
  function StringPairs(stores: seq<Store>): Option<seq<(string, string)>>
    decreases |stores|
  {
    if stores == [] then Some([])
    else
      var last := stores[|stores| - 1];
      match StringPairs(stores[..|stores| - 1])
      case None => None
      case Some(ps) =>
        if last.TableSet? && last.key.Str? && last.value.Str? then Some(ps + [(last.key.s, last.value.s)])
        else None
  }

  lemma {:induction false} VecStoresArray(items: seq<Pushable>, n: nat)
    requires n <= |items|
    ensures ArrayPart(VecStores(items, n)) == Some(seq(n, i requires 0 <= i < n => Encode(items[i])))
  {
    var vals := seq(n, i requires 0 <= i < n => Encode(items[i]));
    if n == 0 {
      assert vals == [];
    } else {
      VecStoresArray(items, n - 1);
      assert VecStores(items, n)[..n - 1] == VecStores(items, n - 1);
      assert VecStores(items, n)[n - 1] == RawIndexSet(n, Encode(items[n - 1]));
      assert seq(n, i requires 0 <= i < n => Encode(items[i]))
          == seq(n - 1, i requires 0 <= i < n - 1 => Encode(items[i])) + [Encode(items[n - 1])];
    }
  }

  /**
   * A Vec is pushed as a table with an array-size hint of min(len, i32::MAX)
   * whose stores put element i at index i + 1, in order, for the first
   * min(len, i32::MAX) elements and no others; an empty Vec is an empty
   * table, not nil.
   */
  lemma VecRoundTrip(items: seq<Pushable>)
    ensures var n := Min(|items|, I32_MAX);
            var t := Encode(PVec(items));
            && t.Table? && t.narr == n && t.nrec == 0
            && ArrayPart(t.stores) == Some(seq(n, i requires 0 <= i < n => Encode(items[i])))
    ensures items == [] ==> Encode(PVec(items)) == Table(0, 0, [])
  {
    VecStoresArray(items, VecLen(|items|));
  }

  /** A struct is pushed as one new table with one set_field per field, in order. */
  lemma StructShape(fs: seq<(string, Pushable)>)
    ensures var t := Encode(PStruct(fs));
            && t.Table? && t.narr == 0 && t.nrec == 0 && |t.stores| == |fs|
            && forall i :: 0 <= i < |fs| ==> t.stores[i] == FieldSet(fs[i].0, Encode(fs[i].1))
  {
  }

  /** `None` pushes nil; `Some(x)` pushes exactly what `x` pushes. */
  lemma OptionShape(o: Option<Pushable>)
    ensures o.None? ==> Encode(POption(o)) == Nil
    ensures o.Some? ==> Encode(POption(o)) == Encode(o.value)
  {
  }

  // The Lua values the geoip2 fields are pushed as

  /** An optional sub-record field: nil when absent, else the table the sub-record's own impl pushes. */
  function SubTable<T>(o: Option<T>, f: T -> Pushable): LuaValue {
    if o.Some? then Encode(f(o.value)) else Nil
  }

  function BoolOrNil(o: Option<bool>): LuaValue { if o.Some? then Boolean(o.value) else Nil }
  function StrOrNil(o: Option<string>): LuaValue { if o.Some? then Str(o.value) else Nil }
  function IntegerOrNil(o: Option<U32>): LuaValue { if o.Some? then Integer(o.value as int) else Nil }
  function WholeOrNil(o: Option<U16>): LuaValue { if o.Some? then Number(Whole(o.value as int)) else Nil }
  function FloatOrNil(o: Option<F64>): LuaValue { if o.Some? then Number(Float(o.value.bits)) else Nil }

  /** A names table as Lua sees it: one string-to-string settable per entry, in key order. */
  function NamesTable(n: seq<(string, string)>): LuaValue {
    Table(0, 0, seq(|n|, i requires 0 <= i < |n| => TableSet(Str(n[i].0), Str(n[i].1))))
  }

  function NamesOrNil(o: Option<Names>): LuaValue { if o.Some? then NamesTable(o.value) else Nil }

  // The geoip2 types as Pushable values

  function OptionOf<T>(o: Option<T>, f: T -> Pushable): (r: Pushable)
    ensures Encode(r) == SubTable(o, f)
  {
    POption(if o.Some? then Some(f(o.value)) else None)
  }

  /** The entries of a names table, in its (ascending) iteration order. */
  function NameEntries(n: seq<(string, string)>): (r: seq<(Pushable, Pushable)>)
    ensures |r| == |n|
  {
    seq(|n|, i requires 0 <= i < |n| => (PStr(n[i].0), PStr(n[i].1)))
  }

  function NamesValue(n: Names): (r: Pushable)
    ensures Encode(r) == NamesTable(n)
  {
    var es := NameEntries(n);
    assert forall i :: 0 <= i < |n| ==> MapStores(es, |es|)[i] == TableSet(Str(n[i].0), Str(n[i].1));
    PMap(es)
  }

  lemma {:induction false} NameStoresDecode(n: seq<(string, string)>, k: nat)
    requires k <= |n|
    ensures StringPairs(MapStores(NameEntries(n), k)) == Some(n[..k])
  {
    if k > 0 {
      NameStoresDecode(n, k - 1);
      assert MapStores(NameEntries(n), k)[..k - 1] == MapStores(NameEntries(n), k - 1);
      assert n[..k] == n[..k - 1] + [n[k - 1]];
    }
  }

  /**
   * A names table is pushed as one table with one settable per entry,
   * string key to string value, visiting the keys in ascending order;
   * reading the stores back gives the table itself.
   */
  lemma NamesRoundTrip(n: Names)
    ensures var t := Encode(NamesValue(n));
            && t.Table? && |t.stores| == |n|
            && (forall i :: 0 <= i < |n| ==> t.stores[i] == TableSet(Str(n[i].0), Str(n[i].1)))
            && (forall i, j :: 0 <= i < j < |n| ==> Less(t.stores[i].key.s, t.stores[j].key.s))
            && StringPairs(t.stores) == Some(n)
  {
    NameStoresDecode(n, |n|);
    assert n[..|n|] == n;
  }

  /**
   * `t` is what a push_struct_to_lua! invocation leaves: one new table
   * and one set_field per listed field, keyed by the field names in order.
   */
  predicate IsStructTable(t: LuaValue, names: seq<string>) {
    && t.Table? && t.narr == 0 && t.nrec == 0 && |t.stores| == |names|
    && forall i :: 0 <= i < |names| ==> t.stores[i].FieldSet? && t.stores[i].name == names[i]
  }

  /**
   * `t` is what a push_struct_to_lua! invocation leaves when field
   * `names[i]` holds the Lua value `values[i]`: one new table, then one
   * set_field per field, in order, each storing that field's value.
   */
  predicate IsStructTableOf(t: LuaValue, names: seq<string>, values: seq<LuaValue>) {
    && IsStructTable(t, names) && |values| == |names|
    && forall i :: 0 <= i < |names| ==> t.stores[i].value == values[i]
  }

  function OptStr(o: Option<string>): (r: Pushable) ensures Encode(r) == StrOrNil(o) { OptionOf(o, s => PStr(s)) }
  function OptBool(o: Option<bool>): (r: Pushable) ensures Encode(r) == BoolOrNil(o) { OptionOf(o, b => PBool(b)) }
  function OptU32(o: Option<U32>): (r: Pushable) ensures Encode(r) == IntegerOrNil(o) { OptionOf(o, u => PU32(u)) }
  function OptU16(o: Option<U16>): (r: Pushable) ensures Encode(r) == WholeOrNil(o) { OptionOf(o, h => PU16(h)) }
  function OptF64(o: Option<F64>): (r: Pushable) ensures Encode(r) == FloatOrNil(o) { OptionOf(o, f => PF64(f)) }
  function OptNames(o: Option<Names>): (r: Pushable) ensures Encode(r) == NamesOrNil(o) { OptionOf(o, NamesValue) }

  function TraitsValue(t: M.Traits): (r: Pushable)
    ensures IsStructTableOf(Encode(r),
                            ["is_anonymous_proxy", "is_satellite_provider"],
                            [BoolOrNil(t.isAnonymousProxy),
                             BoolOrNil(t.isSatelliteProvider)])
  {
    PStruct([("is_anonymous_proxy", OptBool(t.isAnonymousProxy)),
             ("is_satellite_provider", OptBool(t.isSatelliteProvider))])
  }

  function SubdivisionValue(d: M.Subdivision): (r: Pushable)
    ensures IsStructTableOf(Encode(r),
                            ["geoname_id", "iso_code", "names"],
                            [IntegerOrNil(d.geonameId),
                             StrOrNil(d.isoCode),
                             NamesOrNil(d.names)])
  {
    PStruct([("geoname_id", OptU32(d.geonameId)),
             ("iso_code", OptStr(d.isoCode)),
             ("names", OptNames(d.names))])
  }

  function PostalValue(p: M.Postal): (r: Pushable)
    ensures IsStructTableOf(Encode(r),
                            ["code"],
                            [StrOrNil(p.code)])
  {
    PStruct([("code", OptStr(p.code))])
  }

  function RepresentedCountryValue(c: M.RepresentedCountry): (r: Pushable)
    ensures IsStructTableOf(Encode(r),
                            ["names", "iso_code", "geoname_id"],
                            [NamesOrNil(c.names),
                             StrOrNil(c.isoCode),
                             IntegerOrNil(c.geonameId)])
  {
    PStruct([("names", OptNames(c.names)),
             ("iso_code", OptStr(c.isoCode)),
             ("geoname_id", OptU32(c.geonameId))])
  }

  function ModelCountryValue(c: M.Country): (r: Pushable)
    ensures IsStructTableOf(Encode(r),
                            ["names", "is_in_european_union", "iso_code", "geoname_id"],
                            [NamesOrNil(c.names),
                             BoolOrNil(c.isInEuropeanUnion),
                             StrOrNil(c.isoCode),
                             IntegerOrNil(c.geonameId)])
  {
    PStruct([("names", OptNames(c.names)),
             ("is_in_european_union", OptBool(c.isInEuropeanUnion)),
             ("iso_code", OptStr(c.isoCode)),
             ("geoname_id", OptU32(c.geonameId))])
  }

  function ContinentValue(c: M.Continent): (r: Pushable)
    ensures IsStructTableOf(Encode(r),
                            ["code", "geoname_id", "names"],
                            [StrOrNil(c.code),
                             IntegerOrNil(c.geonameId),
                             NamesOrNil(c.names)])
  {
    PStruct([("code", OptStr(c.code)),
             ("geoname_id", OptU32(c.geonameId)),
             ("names", OptNames(c.names))])
  }

  function ModelCityValue(c: M.City): (r: Pushable)
    ensures IsStructTableOf(Encode(r),
                            ["geoname_id", "names"],
                            [IntegerOrNil(c.geonameId),
                             NamesOrNil(c.names)])
  {
    PStruct([("geoname_id", OptU32(c.geonameId)),
             ("names", OptNames(c.names))])
  }

  function LocationValue(l: M.Location): (r: Pushable)
    ensures IsStructTableOf(Encode(r),
                            ["latitude", "longitude", "metro_code", "time_zone"],
                            [FloatOrNil(l.latitude),
                             FloatOrNil(l.longitude),
                             WholeOrNil(l.metroCode),
                             StrOrNil(l.timeZone)])
  {
    PStruct([("latitude", OptF64(l.latitude)),
             ("longitude", OptF64(l.longitude)),
             ("metro_code", OptU16(l.metroCode)),
             ("time_zone", OptStr(l.timeZone))])
  }

  function CountryValue(c: G.Country): (r: Pushable)
    ensures IsStructTableOf(Encode(r),
                            ["country", "continent", "registered_country", "represented_country", "traits"],
                            [SubTable(c.country, ModelCountryValue),
                             SubTable(c.continent, ContinentValue),
                             SubTable(c.registeredCountry, ModelCountryValue),
                             SubTable(c.representedCountry, RepresentedCountryValue),
                             SubTable(c.traits, TraitsValue)])
  {
    PStruct([("country", OptionOf(c.country, ModelCountryValue)),
             ("continent", OptionOf(c.continent, ContinentValue)),
             ("registered_country", OptionOf(c.registeredCountry, ModelCountryValue)),
             ("represented_country", OptionOf(c.representedCountry, RepresentedCountryValue)),
             ("traits", OptionOf(c.traits, TraitsValue))])
  }

  function AnonymousIpValue(a: G.AnonymousIp): (r: Pushable)
    ensures IsStructTableOf(Encode(r),
                            ["is_anonymous", "is_anonymous_vpn", "is_hosting_provider", "is_public_proxy", "is_tor_exit_node"],
                            [BoolOrNil(a.isAnonymous),
                             BoolOrNil(a.isAnonymousVpn),
                             BoolOrNil(a.isHostingProvider),
                             BoolOrNil(a.isPublicProxy),
                             BoolOrNil(a.isTorExitNode)])
  {
    PStruct([("is_anonymous", OptBool(a.isAnonymous)),
             ("is_anonymous_vpn", OptBool(a.isAnonymousVpn)),
             ("is_hosting_provider", OptBool(a.isHostingProvider)),
             ("is_public_proxy", OptBool(a.isPublicProxy)),
             ("is_tor_exit_node", OptBool(a.isTorExitNode))])
  }

  function AsnValue(a: G.Asn): (r: Pushable)
    ensures IsStructTableOf(Encode(r),
                            ["autonomous_system_number", "autonomous_system_organization"],
                            [IntegerOrNil(a.autonomousSystemNumber),
                             StrOrNil(a.autonomousSystemOrganization)])
  {
    PStruct([("autonomous_system_number", OptU32(a.autonomousSystemNumber)),
             ("autonomous_system_organization", OptStr(a.autonomousSystemOrganization))])
  }

  /** The subdivisions Vec: its first min(len, i32::MAX) subdivision tables at indices 1, 2, ... */
  /** The subdivisions Vec: its first min(len, i32::MAX) subdivision tables at indices 1, 2, ... */
  function SubdivisionsValue(ds: seq<M.Subdivision>): (r: Pushable)
    ensures var t := Encode(r);
            && t.Table? && t.narr == VecLen(|ds|)
            && ArrayPart(t.stores) == Some(seq(VecLen(|ds|), i requires 0 <= i < VecLen(|ds|) => Encode(SubdivisionValue(ds[i]))))
  {
    var items := seq(|ds|, i requires 0 <= i < |ds| => SubdivisionValue(ds[i]));
    var n := VecLen(|items|);
    VecStoresArray(items, n);
    var tables := seq(n, i requires 0 <= i < n => Encode(items[i]));
    assert ArrayPart(VecStores(items, n)) == Some(tables);
    assert tables == seq(VecLen(|ds|), i requires 0 <= i < VecLen(|ds|) => Encode(SubdivisionValue(ds[i])));
    PVec(items)
  }

  function CityValue(c: G.City): (r: Pushable)
    ensures IsStructTableOf(Encode(r),
                            ["city", "continent", "country", "location", "postal", "registered_country", "represented_country", "subdivisions", "traits"],
                            [SubTable(c.city, ModelCityValue),
                             SubTable(c.continent, ContinentValue),
                             SubTable(c.country, ModelCountryValue),
                             SubTable(c.location, LocationValue),
                             SubTable(c.postal, PostalValue),
                             SubTable(c.registeredCountry, ModelCountryValue),
                             SubTable(c.representedCountry, RepresentedCountryValue),
                             SubTable(c.subdivisions, SubdivisionsValue),
                             SubTable(c.traits, TraitsValue)])
  {
    PStruct([("city", OptionOf(c.city, ModelCityValue)),
             ("continent", OptionOf(c.continent, ContinentValue)),
             ("country", OptionOf(c.country, ModelCountryValue)),
             ("location", OptionOf(c.location, LocationValue)),
             ("postal", OptionOf(c.postal, PostalValue)),
             ("registered_country", OptionOf(c.registeredCountry, ModelCountryValue)),
             ("represented_country", OptionOf(c.representedCountry, RepresentedCountryValue)),
             ("subdivisions", OptionOf(c.subdivisions, SubdivisionsValue)),
             ("traits", OptionOf(c.traits, TraitsValue))])
  }

  function ConnectionTypeValue(c: G.ConnectionType): (r: Pushable)
    ensures IsStructTableOf(Encode(r),
                            ["connection_type"],
                            [StrOrNil(c.connectionType)])
  {
    PStruct([("connection_type", OptStr(c.connectionType))])
  }

  function DensityIncomeValue(d: G.DensityIncome): (r: Pushable)
    ensures IsStructTableOf(Encode(r),
                            ["population_density", "average_income"],
                            [IntegerOrNil(d.populationDensity),
                             IntegerOrNil(d.averageIncome)])
  {
    PStruct([("population_density", OptU32(d.populationDensity)),
             ("average_income", OptU32(d.averageIncome))])
  }

  function DomainValue(d: G.Domain): (r: Pushable)
    ensures IsStructTableOf(Encode(r),
                            ["domain"],
                            [StrOrNil(d.domain)])
  {
    PStruct([("domain", OptStr(d.domain))])
  }

  function IspValue(i: G.Isp): (r: Pushable)
    ensures IsStructTableOf(Encode(r),
                            ["autonomous_system_number", "autonomous_system_organization", "isp", "organization"],
                            [IntegerOrNil(i.autonomousSystemNumber),
                             StrOrNil(i.autonomousSystemOrganization),
                             StrOrNil(i.isp),
                             StrOrNil(i.organization)])
  {
    PStruct([("autonomous_system_number", OptU32(i.autonomousSystemNumber)),
             ("autonomous_system_organization", OptStr(i.autonomousSystemOrganization)),
             ("isp", OptStr(i.isp)),
             ("organization", OptStr(i.organization))])
  }
}
