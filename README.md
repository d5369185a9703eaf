# gm_maxminddb_geoip, modelled in Dafny

`gm_maxminddb_geoip` is a Garry's Mod binary module written in Rust. It
lets Lua scripts look up IP addresses in a MaxMind database. It puts a
`maxminddb` table into Lua's globals with three functions: `refresh()`,
`query(ip, record)` and `country(ip, lang)`. It also adds a
`records` table that maps each record kind's name to its integer code. Each
Lua thread keeps its own cached database state. That state is opened
lazily, on first use, from one of two fixed paths. A query result is a
typed geoip2 record, and the module converts it into nested Lua tables with
the `PushToLua` trait.

This project models that core in Dafny:

- `wrappers.dfy`: module `Wrappers`, holding Rust's `Option` and `Result`.
- `prims.dfy`: module `Prims`, holding `u16`, `u32`, `f64` (kept as an opaque bit pattern) and `i32::MAX`.
- `name_table.dfy`: module `NameTable`, the `BTreeMap<&str, &str>` of localized names. It is a list of entries whose keys are strictly ascending in Rust's order on `str`. The module proves that this order is a strict total order. It also defines `get`.
- `lua.dfy`: module `Lua`, the Lua C API surface the core uses. `LuaState` is a stack of values. A table is a value that records each `set_field`, `set_table` and `raw_seti` made on it, in order.
- `geoip2.dfy`: modules `GeoModel` and `GeoIP2`, the record types of the engine. They keep the fields the serializer pushes.
- `serialize.dfy`: module `Serialize`, the `PushToLua` trait. The Rust types that implement it are the alternatives of `Pushable`. `Encode` gives the one Lua value a push leaves on top. `PushToLua` and its helpers `PushMap`, `PushVec` and `PushStruct` make the real API calls, and each is proved to grow the stack by exactly `Encode(v)`. Each geoip2 struct impl becomes a function that returns its `push_struct_to_lua!` field list.
- `records.dfy`: module `Records`, the `GeoIPRecord` enumeration, its codes, `try_from`, and the `records` table.
- `database.dfy`: module `Database`, holding `DBError`, `init_db` and the state transition `refresh` makes.
- `geoip.dfy`: module `GeoIP`, holding the typed lookup dispatch, `extract_country`, and the class `GeoContext`. `GeoContext` is one thread's `DB` thread-local, with the Lua functions `Refresh`, `Query` and `Country` as methods.

Some parts are parameters of the model:

- The filesystem and `Reader::open_mmap` are a `Disk`, a map from each existing path to the result of opening it.
- The engine's `lookup::<T>` functions are an `Engine`, with one function per record type.
- The result of parsing the IP text is given as an argument.
- `lua.error` becomes the outcome `Raised(message)`.

Three behaviours of the code are easy to misread, and the model follows the code in each:

- A failed `refresh` replaces an earlier failure, but it keeps a reader that is already open (src/lib.rs:65-67). It does not record the failure over a working reader. `Database.RefreshHistory` states what a series of refreshes therefore leaves.
- A bad IP text or an unknown record code raises a Lua error (src/lib.rs:78, 83). These are not returned as a `nil, message` pair.
- A names table is pushed in ascending key order, because it is a `BTreeMap`. It is not pushed in insertion order.

## Model

| member | source | states |
|---|---|---|
| Records.Code | src/lib.rs:158-162 | the discriminant of each kind is its position in declaration order, 0 to 7 |
| Records.Name | src/lib.rs:210-214 | the `stringify!` key of each kind is a non-empty ASCII word that names that kind and no other, so the `records` keys are unique |
| Records.TryFrom | src/lib.rs:163-177 | succeeds exactly for 0..7, giving the kind declared at that position; any other integer is an `Err` carrying that same integer |
| Records.RoundTrip | src/lib.rs:166-174 | `try_from(r as isize) == Ok(r)` for every kind, and distinct kinds have distinct codes |
| Records.RecordsTableBinds | src/lib.rs:207-217 | the `records` table has one set_field per kind; each entry binds a kind's name to a code that `try_from` maps back to that kind; the entry for kind r sits at position `Code(r)`; no two entries share a name |
| Records.PushRecordsTable | src/lib.rs:207-217 | pushes exactly the `records` table (one new table plus one integer set_field per kind) and changes nothing below it |
| Database.Open | src/lib.rs:38 | opening a path gives its reader, or an engine error wrapped as `DBError::Internal` (never `NotInstalled`) |
| Database.Message | src/lib.rs:26-33 | the text Lua receives for an error: an engine error shows the engine's own message unchanged (`{0}`); the not-installed text opens with "You didn't install the MaxMindDB database!", names both paths `init_db` looks in, and ends with `https://maxmind.com` |
| Database.InitDb | src/lib.rs:35-45 | when the primary path exists, its open result is returned even if it is an error; the fallback path is opened only when the primary is absent; `NotInstalled` exactly when neither exists |
| Database.Refreshed | src/lib.rs:53-69 | after refresh the state holds a reader iff the new open or the old state had one; a new reader always wins; a failure is recorded only over a failure and is then the latest one |
| Database.RefreshHistory | src/lib.rs:53-69 | after any series of refreshes: the reader of the last successful one; with none, an old reader is kept; a state without a reader holds the latest failure |
| NameTable.LessIrreflexive | src/serialize.rs:58-69 | Rust's `str` order is irreflexive |
| NameTable.LessTransitive | src/serialize.rs:58-69 | Rust's `str` order is transitive |
| NameTable.LessTotal | src/serialize.rs:58-69 | any two distinct strings are ordered one way or the other |
| NameTable.KeysDistinct | src/lib.rs:120-125 | a names table holds each key once |
| NameTable.Get | src/lib.rs:122-124 | `get` returns a value stored under the key, or nothing when no entry has that key |
| NameTable.GetFinds | src/lib.rs:122-124 | in a names table, `get(key) == Some(v)` iff `(key, v)` is an entry |
| NameTable.FirstIsSmallest | src/lib.rs:125 | the first entry in iteration order has a key smaller than every other entry's key |
| GeoIP.ExtractCountry | src/lib.rs:116-127 | nothing iff the record has no country, the country no names, or no names at all; any name returned is a value of the country's names table |
| GeoIP.ExtractCountryFallback | src/lib.rs:120-126 | the name for `lang` if present, else the one for "en", else "en-US", else the first entry (the smallest key) |
| GeoIP.ExtractCountryExamples | src/lib.rs:120-126 | for "fr": {de, en} gives the "en" name, {de, en-US} the "en-US" name, {ja} the only name, an empty table nothing; for "de" the "de" name |
| GeoIP.Lookup | src/lib.rs:178-188 | for each kind, the result fails exactly when that kind's typed engine lookup fails, carrying the engine's message, and otherwise is the found record as that type's impl pushes it; a record found is pushed as a table with exactly the kind's declared fields, in order |
| GeoIP.LookupAndPush | src/lib.rs:179-187 | on success one record value is pushed and `Ok(())` returned; a lookup error becomes `DBError::Internal` with nothing pushed |
| GeoIP.QueryPushes | src/lib.rs:86-102 | one value or two values (nil and a message); a failed cached state gives nil and its message without a lookup; a lookup error gives nil and the engine's message; a successful state and lookup give exactly one value, the found record's table, and one value is only ever that |
| GeoIP.CountryPushes | src/lib.rs:129-152 | a failed cached state or a lookup error gives nil and the message; a found record gives one value, the extracted name or nil |
| GeoIP.RefreshPushes | src/lib.rs:54-69 | `true` alone on success; `false` and the error's message on failure |
| GeoIP.GeoContext.With | src/lib.rs:47-49 | the thread-local runs `init_db` on first use only and caches its result |
| GeoIP.GeoContext.Refresh | src/lib.rs:51-72 | pushes `true` and returns 1 with the state set to the new reader, or pushes `false` and the message and returns 2, overwriting only a failed state |
| GeoIP.GeoContext.Query | src/lib.rs:74-104 | raises on a bad address, then on an unknown record code, before touching the state; otherwise returns as many values as it pushes, those of `QueryPushes` |
| GeoIP.GeoContext.Country | src/lib.rs:106-154 | raises on a bad address; uses "en" when argument 2 is not a string; returns 1 with the name or nil, or 2 with nil and the message |
| GeoIP.RefreshIsolation | src/lib.rs:47-49 | a refresh in one context leaves every other context's state unchanged |
| Serialize.PushToLua | src/serialize.rs:11-57 | every push grows the stack by exactly one value, `Encode(v)`, and leaves all values below it unchanged; `&str`, `bool`, `u32`, `f64` and `u16` push string, boolean, integer, number and number |
| Serialize.Encode | src/serialize.rs:11-57 | the value one push leaves: only an absent `Option` pushes nil; every table is created with no record-size hint and an array-size hint of at most `i32::MAX`; `push_integer` only receives a `u32` value, and a number made from an integer is a `u16` |
| Serialize.PushMap | src/serialize.rs:58-69 | one new table, then one settable per entry in iteration order, leaving one value |
| Serialize.PushVec | src/serialize.rs:70-82 | a table sized `min(len, i32::MAX)`, then that many elements stored at indices 1.. in order, leaving one value |
| Serialize.PushStruct | src/serialize.rs:1-10 | one new table, then one set_field per listed field in order, leaving one value |
| Serialize.OptionShape | src/serialize.rs:50-57 | `None` pushes nil; `Some(x)` pushes exactly what `x` pushes |
| Serialize.VecRoundTrip | src/serialize.rs:70-82 | the table's size hint is `min(len, i32::MAX)`; reading its stores back gives the first `min(len, i32::MAX)` elements in order at indices 1, 2, ...; an empty Vec is an empty table, not nil |
| Serialize.StructShape | src/serialize.rs:1-10 | a struct is one new table with one set_field per field, in the listed order, each storing that field's pushed value |
| Serialize.NamesRoundTrip | src/serialize.rs:58-69 | a names map is one settable per entry, string to string, with keys strictly ascending; reading the stores back gives the map |
| Serialize.TraitsValue | src/serialize.rs:86-95 | one new table, then one set_field per field in this order, each storing the record's own field, or nil when it is absent: `is_anonymous_proxy` as a boolean, `is_satellite_provider` as a boolean |
| Serialize.SubdivisionValue | src/serialize.rs:96-106 | one new table, then one set_field per field in this order, each storing the record's own field, or nil when it is absent: `geoname_id` as an integer, `iso_code` as a string, `names` as a names table |
| Serialize.PostalValue | src/serialize.rs:107-115 | one new table, then one set_field per field in this order, each storing the record's own field, or nil when it is absent: `code` as a string |
| Serialize.RepresentedCountryValue | src/serialize.rs:116-126 | one new table, then one set_field per field in this order, each storing the record's own field, or nil when it is absent: `names` as a names table, `iso_code` as a string, `geoname_id` as an integer |
| Serialize.ModelCountryValue | src/serialize.rs:127-138 | one new table, then one set_field per field in this order, each storing the record's own field, or nil when it is absent: `names` as a names table, `is_in_european_union` as a boolean, `iso_code` as a string, `geoname_id` as an integer |
| Serialize.ContinentValue | src/serialize.rs:139-149 | one new table, then one set_field per field in this order, each storing the record's own field, or nil when it is absent: `code` as a string, `geoname_id` as an integer, `names` as a names table |
| Serialize.ModelCityValue | src/serialize.rs:150-159 | one new table, then one set_field per field in this order, each storing the record's own field, or nil when it is absent: `geoname_id` as an integer, `names` as a names table |
| Serialize.LocationValue | src/serialize.rs:160-171 | one new table, then one set_field per field in this order, each storing the record's own field, or nil when it is absent: `latitude` as a number, `longitude` as a number, `metro_code` as a number made from the integer, `time_zone` as a string |
| Serialize.CountryValue | src/serialize.rs:172-184 | one new table, then set_fields `country`, `continent`, `registered_country`, `represented_country`, `traits` in this order, each storing the record's own sub-record as that sub-record's impl pushes it, or nil when it is absent |
| Serialize.AnonymousIpValue | src/serialize.rs:185-197 | one new table, then one set_field per field in this order, each storing the record's own field, or nil when it is absent: `is_anonymous` as a boolean, `is_anonymous_vpn` as a boolean, `is_hosting_provider` as a boolean, `is_public_proxy` as a boolean, `is_tor_exit_node` as a boolean |
| Serialize.AsnValue | src/serialize.rs:198-207 | one new table, then one set_field per field in this order, each storing the record's own field, or nil when it is absent: `autonomous_system_number` as an integer, `autonomous_system_organization` as a string |
| Serialize.SubdivisionsValue | src/serialize.rs:70-82 | the `subdivisions` Vec of a city: a table sized `min(len, i32::MAX)` whose stores read back as that many subdivision tables, in order, at indices 1, 2, ... |
| Serialize.CityValue | src/serialize.rs:208-224 | one new table, then set_fields `city`, `continent`, `country`, `location`, `postal`, `registered_country`, `represented_country`, `subdivisions`, `traits` in this order, each storing the record's own sub-record as that sub-record's impl pushes it (`subdivisions` as the Vec of subdivision tables), or nil when it is absent |
| Serialize.ConnectionTypeValue | src/serialize.rs:225-233 | one new table, then one set_field per field in this order, each storing the record's own field, or nil when it is absent: `connection_type` as a string |
| Serialize.DensityIncomeValue | src/serialize.rs:234-243 | one new table, then one set_field per field in this order, each storing the record's own field, or nil when it is absent: `population_density` as an integer, `average_income` as an integer |
| Serialize.DomainValue | src/serialize.rs:244-252 | one new table, then one set_field per field in this order, each storing the record's own field, or nil when it is absent: `domain` as a string |
| Serialize.IspValue | src/serialize.rs:253-264 | one new table, then one set_field per field in this order, each storing the record's own field, or nil when it is absent: `autonomous_system_number` as an integer, `autonomous_system_organization` as a string, `isp` as a string, `organization` as a string |

## Left out

- The maxminddb engine is not part of this model: its file format, `open_mmap` and `lookup::<T>`. The results of opening each path are the `Disk` parameter. The lookups are the `Engine` parameter.
- `PathBuf::exists` is not modelled. A path exists when it is a key of `Disk.files`.
- IP text parsing (`IpAddr::from_str`) is not modelled, because it belongs to the standard library. `Query` and `Country` receive its result, and its error text is taken as given.
- `check_string` and `check_integer` argument errors are not modelled, because Lua raises them itself. Lua's conversion of a float argument to an integer is not modelled either.
- `GeoIP.GeoContext.Country`: its `langArg` is what `get_string(2)` returns. The model does not capture that Lua also converts a number argument into a string.
- `lua.error` unwinds the C stack. The model returns `Raised(message)` with nothing pushed, and does not model the unwinding.
- `gmod13_open` is not modelled, apart from the `records` table: the registration of the functions, the `VERSION` string, `set_global` and `lua_stack_guard!`.
- `thread_local!` and `RefCell` are not modelled. Each `GeoContext` object is one Lua thread, and nothing crosses threads.
- `GeoIP.GeoContext.Refresh`: on a thread's very first use, the source runs `init_db` twice (once to fill the thread-local, once for the refresh). The model lets both runs see the same `Disk`.
- Floating-point values are not modelled. `latitude`, `longitude` and other `f64` pushes carry an opaque bit pattern. A `u16` is pushed as a number made from the integer.
- `Serialize.Encode`: the model assumes a 64-bit target, where `u32 as isize` is exact. On a 32-bit target, a value of 2^31 or more would push a negative integer, and the model does not capture that.
- Lua's own table semantics are not modelled: what a stored nil does, metamethods, and the final contents of a table. A table records the store calls made on it.
- Lua stack limits (`lua_checkstack`) and table aliasing are not modelled. Every table the core builds is new and is reachable only from the stack.
- `MaybeBorrowed` is not modelled, because it only chooses between borrowing and owning.
- The geoip2 record types belong to the maxminddb crate, which is not part of this model. They keep only the fields the serializer pushes, with the types assumed for them: `geoname_id`, ASN, population density and average income are `u32`; `metro_code` is `u16`; latitude and longitude are `f64`.
