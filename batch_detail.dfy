/** The batch QR page (src/pages/BatchCreation/BatchDetail.jsx): after loading
    a batch it shows a QR code whose payload is the URL of that batch's public
    profile page. */
module BatchDetail {
  import opened Wrappers
  import opened Text
  import opened Fetch
  import opened Routing
  import opened Qr

  /** A JSON field the page interpolates: absent from the object, `null`,
      or a string. */
  datatype JsonText = Absent | Null | Str(s: string)

  /** The one field of the fetched batch the page reads. */
  datatype Batch = Batch(identification_number: JsonText)

  /** A template literal's rendering of the field: an absent field reads as
      `undefined`, a `null` as "null", a string as itself. */
  function Interpolate(v: JsonText): (text: string)
    ensures v.Str? ==> text == v.s
    ensures v.Absent? ==> text == "undefined"
    ensures v.Null? ==> text == "null"
  {
    match v
    case Absent => "undefined"
    case Null => "null"
    case Str(s) => s
  }

  /** `batchUrl`: always `http:`, whatever scheme the page itself was served
      with, and built from the window's hostname and port. */
  function BatchProfileUrl(hostname: string, port: string, identificationNumber: JsonText): string
  {
    Http + hostname + ":" + port + "/batchesprofile/" + Interpolate(identificationNumber)
  }

  datatype DetailView =
    | Spinner
    | ErrorText(text: string)
    | NotFoundText(text: string)
    | QrCard(qr: QrRequest, backLink: string)

  /** The page's render: the loading / error / missing checks come first,
      and a QR code is drawn only for loaded batch data. */
  function View(loading: bool, error: bool, batch: Option<Batch>, hostname: string, port: string): (v: DetailView)
    ensures v.Spinner? <==> loading
    ensures v.ErrorText? <==> !loading && error
    ensures v.ErrorText? ==> v.text == "Error loading data"
    ensures v.NotFoundText? <==> !loading && !error && batch.None?
    ensures v.NotFoundText? ==> v.text == "Batch not found!"
    ensures v.QrCard? <==> !loading && !error && batch.Some?
    ensures v.QrCard? ==> v.qr.size == 256 && v.qr.level == 'H' && v.backLink == "/batches"
    ensures v.QrCard? ==> v.qr.value == BatchProfileUrl(hostname, port, batch.value.identification_number)
  {
    match SelectPhase(loading, error, batch)
    case Loading => Spinner
    case Failed => ErrorText("Error loading data")
    case Missing => NotFoundText("Batch not found!")
    case Ready(b) =>
      QrCard(HighQr(BatchProfileUrl(hostname, port, b.identification_number)), "/batches")
  }

  lemma ProfileUrlShape(hostname: string, port: string, idn: string)
    ensures BatchProfileUrl(hostname, port, Str(idn)) ==
      Http + (hostname + ":" + port) + "/" + Join(["batchesprofile", idn], "/")
  {
    assert Join(["batchesprofile", idn], "/") == "batchesprofile" + "/" + Join([idn], "/");
  }

  lemma ProfileLiteralPlain()
    ensures PlainSegment("batchesprofile")
  {
    forall i | 0 <= i < |"batchesprofile"| ensures "batchesprofile"[i] !in "/?#%\\\t\n\r" {
      assert "batchesprofile"[i] in "batchesprofile";
    }
  }

  /** Scanning the QR code opens the public profile page with the same
      identification number, provided the number is one plain path segment
      and the authority does not run into the path. */
  lemma {:induction false} QrOpensProfile(hostname: string, port: string, idn: string)
    requires PlainAuthority(hostname + ":" + port)
    requires PlainSegment(idn)
    ensures ResolveUrl(BatchRoutes, BatchProfileUrl(hostname, port, Str(idn))) ==
      Some(RouteMatch(PublicBatchProfile, map["identification_number" := idn]))
  {
    var parts := ["batchesprofile", idn];
    ProfileUrlShape(hostname, port, idn);
    ProfileLiteralPlain();
    ResolveUrlOfPath(BatchRoutes, hostname + ":" + port, parts);
    ResolveProfilePath(idn);
  }

  lemma ResolveProfilePath(idn: string)
    ensures Resolve(BatchRoutes, ["batchesprofile", idn]) ==
      Some(RouteMatch(PublicBatchProfile, map["identification_number" := idn]))
  {
    var segs := ["batchesprofile", idn];
    forall i | 0 <= i < 6 ensures MatchPattern(BatchRoutes[i].pattern, segs).None? {
      if i > 0 {
        assert segs[0] != "products" && segs[0] != "batches";
        LiteralMismatch(BatchRoutes[i].pattern, segs);
      }
    }
    var route := BatchRoutes[6];
    assert route.pattern == [Lit("batchesprofile"), Param("identification_number")];
    assert MatchPattern(route.pattern, segs) == Some(map["identification_number" := idn]) by {
      assert MatchPattern(route.pattern[1..][1..], segs[1..][1..]) == Some(map[]);
    }
    ResolveAt(BatchRoutes, 6, segs, map["identification_number" := idn]);
  }

  /** Different identification numbers give different payloads, and the
      payload is read back to the number it was made from. */
  lemma QrPayloadIdentifies(hostname: string, port: string, a: string, b: string)
    requires PlainAuthority(hostname + ":" + port)
    requires PlainSegment(a) && PlainSegment(b)
    ensures BatchProfileUrl(hostname, port, Str(a)) == BatchProfileUrl(hostname, port, Str(b)) ==> a == b
  {
    QrOpensProfile(hostname, port, a);
    QrOpensProfile(hostname, port, b);
    assert map["identification_number" := a]["identification_number"] == a;
  }

  lemma SlashedUrlShape(hostname: string, port: string, a: string, b: string)
    ensures BatchProfileUrl(hostname, port, Str(a + "/" + b)) ==
      Http + (hostname + ":" + port) + "/" + Join(["batchesprofile", a, b], "/")
  {
    ProfileUrlShape(hostname, port, a + "/" + b);
    assert Join([a, b], "/") == a + "/" + Join([b], "/");
    assert Join(["batchesprofile", a, b], "/") == "batchesprofile" + "/" + Join([a, b], "/");
    assert Join(["batchesprofile", a + "/" + b], "/") == "batchesprofile" + "/" + Join([a + "/" + b], "/");
  }

  lemma ResolveSlashedPath(a: string, b: string)
    ensures Resolve(BatchRoutes, ["batchesprofile", a, b]) ==
      Some(RouteMatch(NotFound, map["*" := Join(["batchesprofile", a, b], "/")]))
  {
    var parts := ["batchesprofile", a, b];
    forall i | 0 <= i < 7 ensures MatchPattern(BatchRoutes[i].pattern, parts).None? {
      assert parts[0] != "products" && parts[0] != "batches";
    }
    ResolveFrom(BatchRoutes, 7, parts);
  }

  /** An identification number with a '/' in it is not read back: the
      profile URL then falls through to the catch-all page. */
  lemma SlashedNumberNotFound(hostname: string, port: string, a: string, b: string)
    requires PlainAuthority(hostname + ":" + port)
    requires PlainSegment(a) && PlainSegment(b)
    ensures ResolveUrl(BatchRoutes, BatchProfileUrl(hostname, port, Str(a + "/" + b))) ==
      Some(RouteMatch(NotFound, map["*" := Join(["batchesprofile", a, b], "/")]))
  {
    var parts := ["batchesprofile", a, b];
    SlashedUrlShape(hostname, port, a, b);
    ProfileLiteralPlain();
    ResolveUrlOfPath(BatchRoutes, hostname + ":" + port, parts);
    ResolveSlashedPath(a, b);
  }

  /** A batch whose identification number is `null` or missing still gets a
      QR code; its payload opens the profile page of a batch numbered "null"
      or "undefined". */
  lemma UnsetNumberOpensLiteralProfile(hostname: string, port: string, idn: JsonText)
    requires PlainAuthority(hostname + ":" + port)
    requires !idn.Str?
    ensures var text := if idn.Null? then "null" else "undefined";
      ResolveUrl(BatchRoutes, BatchProfileUrl(hostname, port, idn)) ==
        Some(RouteMatch(PublicBatchProfile, map["identification_number" := text]))
  {
    var text := if idn.Null? then "null" else "undefined";
    forall i | 0 <= i < |text| ensures text[i] !in "/?#%\\\t\n\r" {
      assert text[i] in text;
    }
    assert BatchProfileUrl(hostname, port, idn) == BatchProfileUrl(hostname, port, Str(text));
    QrOpensProfile(hostname, port, text);
  }
}
