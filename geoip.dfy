/**
 * The three functions the module exposes to Lua (refresh, query and
 * country) over one execution context's cached database state, with the
 * lookup engine given as a parameter.
 */
module GeoIP {
  import opened Wrappers
  import opened NameTable
  import opened Lua
  import opened Serialize
  import opened Records
  import opened Database
  import G = GeoIP2
  import M = GeoModel

  /** A parsed IP address (4 or 16 octets); parsing itself is not modelled. */
  datatype IpAddr = IpAddr(octets: seq<bv8>)

  /** `Reader::lookup::<T>` for each record type T, giving a record or the engine's error message. */
  datatype Engine = Engine(
    anonymousIp: (Reader, IpAddr) -> Result<G.AnonymousIp, string>,
    asn: (Reader, IpAddr) -> Result<G.Asn, string>,
    city: (Reader, IpAddr) -> Result<G.City, string>,
    connectionType: (Reader, IpAddr) -> Result<G.ConnectionType, string>,
    country: (Reader, IpAddr) -> Result<G.Country, string>,
    densityIncome: (Reader, IpAddr) -> Result<G.DensityIncome, string>,
    domain: (Reader, IpAddr) -> Result<G.Domain, string>,
    isp: (Reader, IpAddr) -> Result<G.Isp, string>)

  /** What a Lua C function does: return a count of results, or raise a Lua error. */
  datatype Outcome = Returned(count: int) | Raised(message: string)

  const UNKNOWN_RECORD_MESSAGE: string := "Unknown or invalid GeoIP record type"

  function InvalidIpMessage(detail: string): string {
    "Invalid IP address: " + detail
  }

  function Lift<T>(res: Result<T, string>, f: T -> Pushable): Result<Pushable, string> {
    match res
    case Ok(record) => Ok(f(record))
    case Err(detail) => Err(detail)
  }

  /**
   * `r` answers the engine's typed lookup `res`: it fails exactly when the
   * engine does, with the engine's message, and otherwise holds the found
   * record as `f` pushes it.
   */
  predicate FromEngine<T>(r: Result<Pushable, string>, res: Result<T, string>, f: T -> Pushable) {
    && (r.Err? <==> res.Err?)
    && (res.Err? ==> r.error == res.error)
    && (res.Ok? ==> r.value == f(res.value))
  }

  /**
   * The typed lookup registered for `kind`, turned into the value it is
   * pushed as; a record found is always pushed as a table with exactly
   * the kind's declared fields, in order.
   */
  function Lookup(engine: Engine, kind: GeoIPRecord, reader: Reader, ip: IpAddr): (r: Result<Pushable, string>)
    ensures kind == AnonymousIp ==> FromEngine(r, engine.anonymousIp(reader, ip), AnonymousIpValue)
    ensures kind == Asn ==> FromEngine(r, engine.asn(reader, ip), AsnValue)
    ensures kind == City ==> FromEngine(r, engine.city(reader, ip), CityValue)
    ensures kind == ConnectionType ==> FromEngine(r, engine.connectionType(reader, ip), ConnectionTypeValue)
    ensures kind == Country ==> FromEngine(r, engine.country(reader, ip), CountryValue)
    ensures kind == DensityIncome ==> FromEngine(r, engine.densityIncome(reader, ip), DensityIncomeValue)
    ensures kind == Domain ==> FromEngine(r, engine.domain(reader, ip), DomainValue)
    ensures kind == Isp ==> FromEngine(r, engine.isp(reader, ip), IspValue)
    ensures r.Ok? ==> IsStructTable(Encode(r.value), Schema(kind))
  {
    match kind
    case AnonymousIp => Lift(engine.anonymousIp(reader, ip), AnonymousIpValue)
    case Asn => Lift(engine.asn(reader, ip), AsnValue)
    case City => Lift(engine.city(reader, ip), CityValue)
    case ConnectionType => Lift(engine.connectionType(reader, ip), ConnectionTypeValue)
    case Country => Lift(engine.country(reader, ip), CountryValue)
    case DensityIncome => Lift(engine.densityIncome(reader, ip), DensityIncomeValue)
    case Domain => Lift(engine.domain(reader, ip), DomainValue)
    case Isp => Lift(engine.isp(reader, ip), IspValue)
  }

  /**
   * `GeoIPRecord::lookup`: on success one record value is pushed; an
   * engine error is returned as a DBError with nothing pushed.
   */
  method LookupAndPush(kind: GeoIPRecord, lua: LuaState, engine: Engine, reader: Reader, ip: IpAddr)
    returns (r: Result<(), DBError>)
    modifies lua
    ensures var l := Lookup(engine, kind, reader, ip);
            && (l.Ok? ==> r == Ok(()) && lua.stack == old(lua.stack) + [Encode(l.value)])
            && (l.Err? ==> r == Err(Internal(l.error)) && lua.stack == old(lua.stack))
  {
    var found := Lookup(engine, kind, reader, ip);
    if found.Err? {
      return Err(Internal(found.error));
    }
    PushToLua(lua, found.value);
    r := Ok(());
  }

  /** The Lua results of an error: nil (or false) followed by the message. */
  predicate IsErrorReturn(pushes: seq<LuaValue>, message: string) {
    |pushes| == 2 && (pushes[0] == Nil || pushes[0] == Boolean(false)) && pushes[1] == Str(message)
  }

  /** The values `query` pushes once its arguments are valid. */
  function QueryPushes(state: DbState, engine: Engine, kind: GeoIPRecord, ip: IpAddr): (r: seq<LuaValue>)
    ensures |r| == 1 || |r| == 2
    ensures state.Err? ==> r == [Nil, Str(Message(state.error))]
    ensures state.Ok? && Lookup(engine, kind, state.value, ip).Err? ==>
              r == [Nil, Str(Lookup(engine, kind, state.value, ip).error)]
    ensures state.Ok? && Lookup(engine, kind, state.value, ip).Ok? ==>
              r == [Encode(Lookup(engine, kind, state.value, ip).value)]
    ensures |r| == 1 ==> state.Ok? && Lookup(engine, kind, state.value, ip).Ok?
                         && r == [Encode(Lookup(engine, kind, state.value, ip).value)]
                         && IsStructTable(r[0], Schema(kind))
    ensures |r| == 2 ==> r[0] == Nil && r[1].Str?
  {
    match state
    case Err(e) => [Nil, Str(Message(e))]
    case Ok(reader) =>
      match Lookup(engine, kind, reader, ip)
      case Ok(record) => [Encode(record)]
      case Err(detail) => [Nil, Str(Message(Internal(detail)))]
  }

  /**
   * `extract_country`: the country's name in `lang`, else in "en", else in
   * "en-US", else the first name in key order; nothing when the record has
   * no country, the country no names, or the names table is empty.
   */
  function ExtractCountry(c: G.Country, lang: string): (r: Option<string>)
    ensures r.None? <==> c.country.None? || c.country.value.names.None? || c.country.value.names.value == []
    ensures r.Some? ==> exists i :: 0 <= i < |c.country.value.names.value| &&
                                   c.country.value.names.value[i].1 == r.value
  {
    if c.country.None? || c.country.value.names.None? then None
    else
      var names := c.country.value.names.value;
      var byLang := Get(names, lang);
      if byLang.Some? then byLang
      else
        var en := Get(names, "en");
        if en.Some? then en
        else
          var enUs := Get(names, "en-US");
          if enUs.Some? then enUs
          else if names != [] then Some(names[0].1)
          else None
  }

  predicate HasKey(names: Names, key: string) {
    exists i :: 0 <= i < |names| && names[i].0 == key
  }

  /** The locale fallback chain, stated over the names table's entries. */
  lemma ExtractCountryFallback(c: G.Country, lang: string, v: string)
    requires c.country.Some? && c.country.value.names.Some?
    ensures var names := c.country.value.names.value;
            var r := ExtractCountry(c, lang);
            && ((lang, v) in names ==> r == Some(v))
            && (!HasKey(names, lang) && ("en", v) in names ==> r == Some(v))
            && (!HasKey(names, lang) && !HasKey(names, "en") && ("en-US", v) in names ==> r == Some(v))
            && (!HasKey(names, lang) && !HasKey(names, "en") && !HasKey(names, "en-US") && names != [] ==>
                  r == Some(names[0].1) && forall i :: 0 < i < |names| ==> Less(names[0].0, names[i].0))
  {
    var names := c.country.value.names.value;
    if names != [] { FirstIsSmallest(names); }
    GetFinds(names, lang, v);
    GetFinds(names, "en", v);
    GetFinds(names, "en-US", v);
  }

  function WithNames(names: Names): G.Country {
    G.Country(None, Some(M.Country(None, None, None, Some(names))), None, None, None)
  }

  const DE_EN: Names := [("de", "Deutschland"), ("en", "Germany")]
  const DE_EN_US: Names := [("de", "Deutschland"), ("en-US", "Germany (US)")]
  const JA: Names := [("ja", "Doitsu")]

  /** The fallback chain on concrete tables, for a language none of them has. */
  lemma ExtractCountryExamples()
    ensures ExtractCountry(WithNames(DE_EN), "fr") == Some("Germany")
    ensures ExtractCountry(WithNames(DE_EN_US), "fr") == Some("Germany (US)")
    ensures ExtractCountry(WithNames(JA), "fr") == Some("Doitsu")
    ensures ExtractCountry(WithNames(DE_EN), "de") == Some("Deutschland")
    ensures ExtractCountry(WithNames([]), "fr") == None
  {
  }

  /** `lua.get_string(2).unwrap_or("en")`. */
  function Lang(arg: Option<string>): string {
    if arg.Some? then arg.value else "en"
  }

  /** The values `country` pushes once its address is valid. */
  function CountryPushes(state: DbState, engine: Engine, ip: IpAddr, lang: string): (r: seq<LuaValue>)
    ensures |r| == 1 || |r| == 2
    ensures state.Err? ==> r == [Nil, Str(Message(state.error))]
    ensures state.Ok? && engine.country(state.value, ip).Err? ==> r == [Nil, Str(engine.country(state.value, ip).error)]
    ensures state.Ok? && engine.country(state.value, ip).Ok? ==>
              var name := ExtractCountry(engine.country(state.value, ip).value, lang);
              r == [if name.Some? then Str(name.value) else Nil]
    ensures |r| == 2 ==> r[0] == Nil && r[1].Str?
  {
    match state
    case Err(e) => [Nil, Str(Message(e))]
    case Ok(reader) =>
      match engine.country(reader, ip)
      case Ok(record) =>
        var name := ExtractCountry(record, lang);
        [if name.Some? then Str(name.value) else Nil]
      case Err(detail) => [Nil, Str(Message(Internal(detail)))]
  }

  /** The values `refresh` pushes for the outcome of its `init_db`. */
  function RefreshPushes(outcome: DbState): (r: seq<LuaValue>)
    ensures |r| == 1 <==> outcome.Ok?
    ensures outcome.Ok? ==> r == [Boolean(true)]
    ensures outcome.Err? ==> IsErrorReturn(r, Message(outcome.error)) && r[0] == Boolean(false)
  {
    match outcome
    case Ok(_) => [Boolean(true)]
    case Err(e) => [Boolean(false), Str(Message(e))]
  }

  /** The state a context holds once `DB.with` has run: its cached state, initialised on first use. */
  function Current(cell: Option<DbState>, disk: Disk): DbState {
    if cell.Some? then cell.value else InitDb(disk)
  }

  /** One execution context (one Lua thread) and its `DB` thread-local. */
  class GeoContext {
    /** None until the thread-local is first used. */
    var db: Option<DbState>

    constructor ()
      ensures db == None
    {
      db := None;
    }

    /** `DB.with`: the state, opened by `init_db` on first use and cached from then on. */
    method With(disk: Disk) returns (state: DbState)
      modifies this
      ensures state == Current(old(db), disk) && db == Some(state)
    {
      if db.None? {
        db := Some(InitDb(disk));
      }
      state := db.value;
    }

    /** `maxminddb.refresh()`. */
    method Refresh(lua: LuaState, disk: Disk) returns (count: int)
      modifies this, lua
      ensures var outcome := InitDb(disk);
              && db == Some(Refreshed(Current(old(db), disk), outcome))
              && lua.stack == old(lua.stack) + RefreshPushes(outcome)
              && count == |RefreshPushes(outcome)|
    {
      var prior := With(disk);
      var outcome := InitDb(disk);
      match outcome {
        case Ok(refreshed) =>
          lua.PushBoolean(true);
          db := Some(Ok(refreshed));
          count := 1;
        case Err(refreshed) =>
          lua.PushBoolean(false);
          lua.PushString(Message(refreshed));
          if prior.Err? {
            db := Some(Err(refreshed));
          }
          count := 2;
      }
    }

    /** `maxminddb.query(ip, record)`, given the parse of `ip` and the integer `record`. */
    method Query(lua: LuaState, disk: Disk, engine: Engine, ipArg: Result<IpAddr, string>, recordArg: int)
      returns (out: Outcome)
      modifies this, lua
      ensures ipArg.Err? ==> out == Raised(InvalidIpMessage(ipArg.error)) && db == old(db)
      ensures ipArg.Ok? && TryFrom(recordArg).Err? ==> out == Raised(UNKNOWN_RECORD_MESSAGE) && db == old(db)
      ensures out.Raised? ==> lua.stack == old(lua.stack)
      ensures ipArg.Ok? && TryFrom(recordArg).Ok? ==>
                var state := Current(old(db), disk);
                var pushes := QueryPushes(state, engine, TryFrom(recordArg).value, ipArg.value);
                && db == Some(state)
                && out == Returned(|pushes|)
                && lua.stack == old(lua.stack) + pushes
    {
      if ipArg.Err? {
        return Raised(InvalidIpMessage(ipArg.error));
      }
      var record := TryFrom(recordArg);
      if record.Err? {
        return Raised(UNKNOWN_RECORD_MESSAGE);
      }
      var state := With(disk);
      match state {
        case Err(e) =>
          lua.PushNil();
          lua.PushString(Message(e));
          out := Returned(2);
        case Ok(reader) =>
          var looked := LookupAndPush(record.value, lua, engine, reader, ipArg.value);
          if looked.Ok? {
            out := Returned(1);
          } else {
            lua.PushNil();
            lua.PushString(Message(looked.error));
            out := Returned(2);
          }
      }
    }

    /** `maxminddb.country(ip, lang)`, given the parse of `ip` and `lua.get_string(2)`. */
    method Country(lua: LuaState, disk: Disk, engine: Engine, ipArg: Result<IpAddr, string>, langArg: Option<string>)
      returns (out: Outcome)
      modifies this, lua
      ensures ipArg.Err? ==> out == Raised(InvalidIpMessage(ipArg.error)) && db == old(db)
                             && lua.stack == old(lua.stack)
      ensures ipArg.Ok? ==>
                var state := Current(old(db), disk);
                var pushes := CountryPushes(state, engine, ipArg.value, Lang(langArg));
                && db == Some(state)
                && out == Returned(|pushes|)
                && lua.stack == old(lua.stack) + pushes
    {
      if ipArg.Err? {
        return Raised(InvalidIpMessage(ipArg.error));
      }
      var lang := Lang(langArg);
      var state := With(disk);
      match state {
        case Err(e) =>
          lua.PushNil();
          lua.PushString(Message(e));
          out := Returned(2);
        case Ok(reader) =>
          var found := engine.country(reader, ipArg.value);
          match found {
            case Ok(record) =>
              var name := ExtractCountry(record, lang);
              if name.Some? {
                lua.PushString(name.value);
              } else {
                lua.PushNil();
              }
              out := Returned(1);
            case Err(detail) =>
              lua.PushNil();
              lua.PushString(Message(Internal(detail)));
              out := Returned(2);
          }
      }
    }
  }

  /** A refresh in one context leaves every other context's state as it was. */
  method RefreshIsolation(a: GeoContext, b: GeoContext, lua: LuaState, disk: Disk) returns (count: int)
    requires a != b
    modifies a, lua
    ensures b.db == old(b.db)
  {
    count := a.Refresh(lua, disk);
  }
}
