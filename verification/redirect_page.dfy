/** The QR redirect resolver of src/components/RedirectPage.jsx. Every call to
    the backend, the browser or a web service is an input: the outcome of the
    code lookup, of the scan insert, of device geolocation, of reverse
    geocoding and of the IP lookup, and a URL parser. The resolver runs in
    order: lookup, scan insert, location, location insert, legacy-host rewrite,
    delayed navigation. Only an absent or unknown code and a target URL that
    does not parse are fatal. */
module RedirectPage {
  import opened Common
  import I18n

  /** The `qr_codes` row selected by tracking URL: `id` and `target_url`. */
  datatype QrRow = QrRow(id: string, targetUrl: string)

  /** The result of `select('id, target_url').eq('tracking_url', code).single()`. */
  datatype LookupOutcome = LookupError | NoRow | Found(row: QrRow)

  /** What the browser supplies to the scan record: the user agent, the
      referrer and the three UTM query parameters (null when absent). */
  datatype Visit = Visit(userAgent: string, referrer: string,
                         utmSource: Option<string>, utmMedium: Option<string>, utmCampaign: Option<string>)

  /** A `qr_scans` row as inserted. */
  datatype ScanRecord = ScanRecord(qrCodeId: string, userAgent: string, referrer: string, ipAddress: string,
                                   utmSource: Option<string>, utmMedium: Option<string>, utmCampaign: Option<string>)

  /** The position the browser reports. */
  datatype Coords = Coords(latitude: real, longitude: real, accuracy: real)

  /** The `address` part of a reverse-geocoding answer. */
  datatype Address = Address(city: Option<string>, town: Option<string>, village: Option<string>, country: Option<string>)

  /** Reverse geocoding: the request or its JSON failed, the answer has no
      `address`, or it has one. */
  datatype ReverseOutcome = ReverseFailed | NoAddress | WithAddress(address: Address)

  /** The fields read from the IP geolocation service. */
  datatype IpLocation = IpLocation(latitude: real, longitude: real, city: Option<string>, countryName: Option<string>)

  /** `locationData`: coordinates, accuracy (null for the IP fallback), city and country. */
  datatype Location = Location(latitude: real, longitude: real, accuracy: Option<real>,
                               city: Option<string>, country: Option<string>)

  /** A `scan_locations` row as inserted. */
  datatype LocationRecord = LocationRecord(scanId: string, latitude: real, longitude: real, accuracy: Option<real>,
                                           city: Option<string>, country: Option<string>)

  /** An attempted insert, in the order the resolver issues them. */
  datatype Insert = ScanInsert(scan: ScanRecord) | LocationInsert(location: LocationRecord)

  /** The two URL parts the rewrite reads. */
  datatype Url = Url(hostname: string, pathname: string)

  /** `window.location.href = url` scheduled after `delayMs` milliseconds. */
  datatype Navigation = Navigation(url: string, delayMs: nat)

  const NetlifyHost := "mobila-buna-redirect.netlify.app"
  const LegacyHost := "mobila-buna-redirect.com"
  const RedirectDelay: nat := 1500

  /** The error text. The page is rendered outside the language provider, so
      its `t` is the default one, which returns the key. */
  const InvalidQRCode := I18n.DefaultTranslate("invalidQRCode")

  /** `getLocationFromIP()`: the service's coordinates, city and country name
      with a null accuracy, or null when the request fails. */
  function LocationFromIP(ip: Option<IpLocation>): (r: Option<Location>)
    ensures ip.None? <==> r.None?
    ensures ip.Some? ==> r.value.latitude == ip.value.latitude && r.value.longitude == ip.value.longitude
    ensures ip.Some? ==> r.value.accuracy.None?
    ensures ip.Some? ==> r.value.city == ip.value.city && r.value.country == ip.value.countryName
  {
    match ip
    case None => None
    case Some(d) => Some(Location(d.latitude, d.longitude, None, d.city, d.countryName))
  }

  /** The location the resolver ends up with. A device fix gives its
      coordinates and accuracy, with city and country from reverse geocoding
      when that answered with an address; without a fix the IP lookup is used. */
  function Located(device: Option<Coords>, reverse: ReverseOutcome, ip: Option<IpLocation>): (r: Option<Location>)
    ensures device.Some? ==> r.Some? && r.value.latitude == device.value.latitude
                             && r.value.longitude == device.value.longitude
                             && r.value.accuracy == Some(device.value.accuracy)
    ensures device.Some? && reverse.WithAddress? ==>
              r.value.city == FirstTruthy(reverse.address.city, reverse.address.town, reverse.address.village)
              && r.value.country == reverse.address.country
    ensures device.Some? && !reverse.WithAddress? ==> r.value.city.None? && r.value.country.None?
    ensures device.None? ==> r == LocationFromIP(ip)
  {
    match device
    case Some(c) =>
      var coordsOnly := Location(c.latitude, c.longitude, Some(c.accuracy), None, None);
      if reverse.WithAddress? then
        var a := reverse.address;
        Some(coordsOnly.(city := FirstTruthy(a.city, a.town, a.village), country := a.country))
      else
        Some(coordsOnly)
    case None => LocationFromIP(ip)
  }

  /** The location step: `locationData` starts null, is set from the device
      fix, gains city and country from reverse geocoding, and is replaced by
      the IP lookup when the device fails. */
  method AcquireLocation(device: Option<Coords>, reverse: ReverseOutcome, ip: Option<IpLocation>)
    returns (locationData: Option<Location>)
    ensures locationData == Located(device, reverse, ip)
  {
    locationData := None;
    if device.Some? {
      var c := device.value;
      locationData := Some(Location(c.latitude, c.longitude, Some(c.accuracy), None, None));
      if reverse.WithAddress? {
        var a := reverse.address;
        locationData := Some(locationData.value.(city := FirstTruthy(a.city, a.town, a.village)));
        locationData := Some(locationData.value.(country := a.country));
      }
    } else {
      locationData := LocationFromIP(ip);
    }
  }

  predicate IsRootPath(pathname: string) {
    pathname == "/" || pathname == "/index.html"
  }

  /** The legacy-host rewrite: the root of the Netlify host goes to YouTube,
      the root of the legacy domain goes to the shop, anything else keeps the
      target URL. */
  function RewriteTarget(hostname: string, pathname: string, targetUrl: string): (r: string)
    ensures hostname == NetlifyHost && IsRootPath(pathname) ==> r == "https://youtube.com"
    ensures hostname == LegacyHost && IsRootPath(pathname) ==> r == "https://mobila-buna.md"
    ensures !((hostname == NetlifyHost || hostname == LegacyHost) && IsRootPath(pathname)) ==> r == targetUrl
  {
    var finalUrl := targetUrl;
    if hostname == NetlifyHost then
      if IsRootPath(pathname) then "https://youtube.com" else finalUrl
    else if hostname == LegacyHost then
      if IsRootPath(pathname) then "https://mobila-buna.md" else finalUrl
    else finalUrl
  }

  /** The rewrite yields the target or one of the two fixed destinations. */
  lemma RewriteRange(hostname: string, pathname: string, targetUrl: string)
    ensures RewriteTarget(hostname, pathname, targetUrl) in {targetUrl, "https://youtube.com", "https://mobila-buna.md"}
    ensures RewriteTarget(hostname, pathname, targetUrl) != targetUrl ==>
              IsRootPath(pathname) && (hostname == NetlifyHost || hostname == LegacyHost)
  {
  }

  /** The rewrite is decided by host and path alone: on a rewritten
      host and path the target URL does not matter. */
  lemma RewriteIgnoresTarget(hostname: string, pathname: string, t1: string, t2: string)
    requires (hostname == NetlifyHost || hostname == LegacyHost) && IsRootPath(pathname)
    ensures RewriteTarget(hostname, pathname, t1) == RewriteTarget(hostname, pathname, t2)
  {
  }

  /** `handleRedirect()`. Returns the final `error` and `redirectUrl` state
      (both start as ""), the inserts attempted in order, and the scheduled
      navigation. A code that is absent, that the lookup does not find, or
      whose target does not parse ends in the error; the inserts themselves
      never stop the flow. */
  method HandleRedirect(code: Option<string>, lookup: LookupOutcome, visit: Visit, scanId: Option<string>,
                        device: Option<Coords>, reverse: ReverseOutcome, ip: Option<IpLocation>,
                        parse: string -> Option<Url>)
    returns (error: string, redirectUrl: string, inserts: seq<Insert>, navigation: Option<Navigation>)
    // no code, or the lookup failed: nothing is inserted and nothing navigates
    ensures !Truthy(code) || !lookup.Found? ==>
              error == InvalidQRCode && redirectUrl == "" && inserts == [] && navigation.None?
    // a found code: exactly one scan insert, first, for the row's id with an anonymous address
    ensures Truthy(code) && lookup.Found? ==>
              1 <= |inserts| <= 2
              && inserts[0] == ScanInsert(ScanRecord(lookup.row.id, visit.userAgent, visit.referrer, "anonymous",
                                                     visit.utmSource, visit.utmMedium, visit.utmCampaign))
              && forall i :: 1 <= i < |inserts| ==> inserts[i].LocationInsert?
    // the location insert happens iff there is both a location and a returned scan row
    ensures Truthy(code) && lookup.Found? ==>
              (|inserts| == 2 <==> Located(device, reverse, ip).Some? && scanId.Some?)
    ensures |inserts| == 2 ==>
              var l := Located(device, reverse, ip).value;
              inserts[1] == LocationInsert(LocationRecord(scanId.value, l.latitude, l.longitude, l.accuracy, l.city, l.country))
    // a target that parses: the rewritten URL is shown and navigated to after the delay
    ensures Truthy(code) && lookup.Found? && parse(lookup.row.targetUrl).Some? ==>
              var u := parse(lookup.row.targetUrl).value;
              error == "" && redirectUrl == RewriteTarget(u.hostname, u.pathname, lookup.row.targetUrl)
              && navigation == Some(Navigation(redirectUrl, RedirectDelay))
    // a target that does not parse: the error, after the inserts
    ensures Truthy(code) && lookup.Found? && parse(lookup.row.targetUrl).None? ==>
              error == InvalidQRCode && redirectUrl == "" && navigation.None?
  {
    error, redirectUrl, inserts, navigation := "", "", [], None;
    if !Truthy(code) {
      error := InvalidQRCode;
      return;
    }
    if !lookup.Found? {
      error := InvalidQRCode;
      return;
    }
    var qrCode := lookup.row;
    inserts := inserts + [ScanInsert(ScanRecord(qrCode.id, visit.userAgent, visit.referrer, "anonymous",
                                                visit.utmSource, visit.utmMedium, visit.utmCampaign))];
    var locationData := AcquireLocation(device, reverse, ip);
    if locationData.Some? && scanId.Some? {
      var l := locationData.value;
      inserts := inserts + [LocationInsert(LocationRecord(scanId.value, l.latitude, l.longitude, l.accuracy, l.city, l.country))];
    }
    var url := parse(qrCode.targetUrl);
    if url.None? {
      error := InvalidQRCode;
      return;
    }
    var finalRedirectUrl := RewriteTarget(url.value.hostname, url.value.pathname, qrCode.targetUrl);
    redirectUrl := finalRedirectUrl;
    navigation := Some(Navigation(finalRedirectUrl, RedirectDelay));
  }

  /** The error text is the untranslated key. */
  lemma InvalidQRCodeIsKey()
    ensures InvalidQRCode == "invalidQRCode"
  {
  }
}
