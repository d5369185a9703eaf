/**
 * The record types that the maxminddb engine deserializes (its
 * `geoip2::model` sub-records), restricted to the fields the serializer
 * pushes. Every field is optional because the database may lack it.
 */
module GeoModel {
  import opened Wrappers
  import opened Prims
  import opened NameTable

  datatype Traits = Traits(isAnonymousProxy: Option<bool>, isSatelliteProvider: Option<bool>)

  datatype Subdivision = Subdivision(geonameId: Option<U32>, isoCode: Option<string>, names: Option<Names>)

  datatype Postal = Postal(code: Option<string>)

  datatype RepresentedCountry = RepresentedCountry(geonameId: Option<U32>, isoCode: Option<string>, names: Option<Names>)

  datatype Country = Country(geonameId: Option<U32>, isInEuropeanUnion: Option<bool>, isoCode: Option<string>,
                             names: Option<Names>)

  datatype Continent = Continent(code: Option<string>, geonameId: Option<U32>, names: Option<Names>)

  datatype City = City(geonameId: Option<U32>, names: Option<Names>)

  datatype Location = Location(latitude: Option<F64>, longitude: Option<F64>, metroCode: Option<U16>,
                               timeZone: Option<string>)
}

/** The top-level geoip2 records, one per kind of lookup. */
module GeoIP2 {
  import opened Wrappers
  import opened Prims
  import M = GeoModel

  datatype Country = Country(continent: Option<M.Continent>, country: Option<M.Country>,
                             registeredCountry: Option<M.Country>,
                             representedCountry: Option<M.RepresentedCountry>, traits: Option<M.Traits>)

  datatype City = City(city: Option<M.City>, continent: Option<M.Continent>, country: Option<M.Country>,
                       location: Option<M.Location>, postal: Option<M.Postal>,
                       registeredCountry: Option<M.Country>,
                       representedCountry: Option<M.RepresentedCountry>,
                       subdivisions: Option<seq<M.Subdivision>>, traits: Option<M.Traits>)

  datatype AnonymousIp = AnonymousIp(isAnonymous: Option<bool>, isAnonymousVpn: Option<bool>,
                                     isHostingProvider: Option<bool>, isPublicProxy: Option<bool>,
                                     isTorExitNode: Option<bool>)

  datatype Asn = Asn(autonomousSystemNumber: Option<U32>, autonomousSystemOrganization: Option<string>)

  datatype ConnectionType = ConnectionType(connectionType: Option<string>)

  datatype DensityIncome = DensityIncome(averageIncome: Option<U32>, populationDensity: Option<U32>)

  datatype Domain = Domain(domain: Option<string>)

  datatype Isp = Isp(autonomousSystemNumber: Option<U32>, autonomousSystemOrganization: Option<string>,
                     isp: Option<string>, organization: Option<string>)
}
