/** The public batch profile page (src/pages/BatchCreation/BatchProfile.jsx):
    what a scanned QR code opens. It fetches the batch by its identification
    number and shows it with fixed fallbacks, and beside that it runs the
    location pipeline: device position, reverse geocoding into a place name,
    and an access-log record for the backend. Requests and the browser's
    geolocation are not modelled; their outcomes are parameters. */
module BatchProfile {
  import opened Wrappers
  import opened Text
  import opened Fetch
  import Base64

  // ----------------------------------------------------------------------
  // Reverse geocoding: from the geocoder's `address` object to a place name
  // ----------------------------------------------------------------------

  /** The `address` object of a reverse-geocoding reply; a key the reply
      lacks is `None`. */
  datatype Address = Address(
    city: Option<string>, town: Option<string>, village: Option<string>,
    state: Option<string>, region: Option<string>, country: Option<string>)

  /** `a || b` */
  function Or(a: Option<string>, b: Option<string>): Option<string>
  {
    if Truthy(a) then a else b
  }

  /** `[city || town || village, state || region, country]` */
  function Components(a: Address): seq<Option<string>>
  {
    [Or(a.city, Or(a.town, a.village)), Or(a.state, a.region), a.country]
  }

  /** `.filter(Boolean)`: the truthy values, in order. */
  function Present(vs: seq<Option<string>>): (r: seq<string>)
    ensures |r| <= |vs|
    ensures forall i :: 0 <= i < |r| ==> r[i] != ""
    ensures r == [] <==> forall i :: 0 <= i < |vs| ==> !Truthy(vs[i])
  {
    if vs == [] then []
    else (if Truthy(vs[0]) then [vs[0].value] else []) + Present(vs[1..])
  }

  const UnknownLocation := "Unknown Location"

  /** The place name `reverseGeocode` builds from an address. */
  function PlaceName(a: Address): string
  {
    var joined := Join(Present(Components(a)), ", ");
    if joined == "" then UnknownLocation else joined
  }

  lemma {:induction false} JoinNonEmpty(parts: seq<string>, sep: string)
    requires |parts| >= 1 && parts[0] != ""
    ensures Join(parts, sep) != ""
  {
    if |parts| >= 2 {
      assert Join(parts, sep)[0] == parts[0][0];
    }
  }

  /** The place name is "Unknown Location" exactly when none of the three
      chosen components is present; otherwise it is the present components
      joined by ", " in the order locality, state, country. */
  lemma PlaceNameCases(a: Address)
    ensures (forall i :: 0 <= i < 3 ==> !Truthy(Components(a)[i])) ==> PlaceName(a) == UnknownLocation
    ensures (exists i :: 0 <= i < 3 && Truthy(Components(a)[i])) ==>
      PlaceName(a) == Join(Present(Components(a)), ", ") && PlaceName(a) != ""
  {
    var parts := Present(Components(a));
    if parts != [] {
      JoinNonEmpty(parts, ", ");
    }
  }

  /** When no component contains a comma, the components can be read back
      from the place name: splitting it at ", " gives exactly the present
      components, in order. */
  lemma PlaceNameSplits(a: Address)
    requires forall i :: 0 <= i < 3 && Components(a)[i].Some? ==> ',' !in Components(a)[i].value
    requires exists i :: 0 <= i < 3 && Truthy(Components(a)[i])
    ensures Split(PlaceName(a), ", ") == Present(Components(a))
  {
    var cs := Components(a);
    var parts := Present(cs);
    PlaceNameCases(a);
    PresentKeepsNoComma(cs);
    SplitJoin(parts, ", ");
  }

  lemma {:induction false} PresentKeepsNoComma(vs: seq<Option<string>>)
    requires forall i :: 0 <= i < |vs| && vs[i].Some? ==> ',' !in vs[i].value
    ensures forall k :: 0 <= k < |Present(vs)| ==> ',' !in Present(vs)[k]
  {
    if vs != [] {
      PresentKeepsNoComma(vs[1..]);
    }
  }

  /** The example of a reply naming city, state and country. */
  lemma PuneExample()
    ensures PlaceName(Address(Some("Pune"), None, None, Some("MH"), None, Some("India"))) == "Pune, MH, India"
  {
    var a := Address(Some("Pune"), None, None, Some("MH"), None, Some("India"));
    assert Components(a) == [Some("Pune"), Some("MH"), Some("India")];
    assert Present(Components(a)) == ["Pune", "MH", "India"];
  }

  /** The reverse-geocoding request either fails or returns a body, which may
      lack the `address` object. */
  datatype GeocodeReply = RequestFailed | Body(address: Option<Address>)

  /** `reverseGeocode`: the place name, or the error it rethrows. Reading a
      component of a missing `address` throws as well. */
  function ReverseGeocode(reply: GeocodeReply): (r: Result<string>)
    ensures r.Err? <==> reply.RequestFailed? || reply.address.None?
    ensures r.Ok? ==> r.value == PlaceName(reply.address.value)
  {
    match reply
    case RequestFailed => Err("request failed")
    case Body(None) => Err("address is undefined")
    case Body(Some(a)) => Ok(PlaceName(a))
  }

  const UnknownName := "Unknown"

  // ----------------------------------------------------------------------
  // The location pipeline and the access-log record
  // ----------------------------------------------------------------------

  /** What `navigator.geolocation` yields: no API, a refusal (or timeout), or
      a position. Coordinates are passed through, never computed on. */
  datatype Geolocation = Unsupported | Refused | Position(latitude: real, longitude: real)

  datatype LocationData = LocationData(latitude: real, longitude: real, locationName: string, source: string)

  /** The location record `getGeoLocation` keeps once a position is known:
      the place name, or "Unknown" when reverse geocoding threw. */
  function LocationOf(latitude: real, longitude: real, reply: GeocodeReply): (loc: LocationData)
    ensures loc.latitude == latitude && loc.longitude == longitude && loc.source == "geolocation"
    ensures loc.locationName == match ReverseGeocode(reply) case Ok(n) => n case Err(_) => UnknownName
  {
    var name := match ReverseGeocode(reply) case Ok(n) => n case Err(_) => UnknownName;
    LocationData(latitude, longitude, name, "geolocation")
  }

  /** A failed geocode, or a reply without an address, names the place
      "Unknown"; a reply with an address never yields an empty name. */
  lemma LocationNameFallbacks(latitude: real, longitude: real, reply: GeocodeReply)
    ensures (reply.RequestFailed? || reply.address.None?) ==>
      LocationOf(latitude, longitude, reply).locationName == UnknownName
    ensures reply.Body? && reply.address.Some? ==>
      LocationOf(latitude, longitude, reply).locationName == PlaceName(reply.address.value)
    ensures LocationOf(latitude, longitude, reply).locationName != ""
  {
    if reply.Body? && reply.address.Some? {
      PlaceNameCases(reply.address.value);
    }
  }

  /** The JSON body of `POST /access-logs`. */
  datatype AccessLogBody = AccessLogBody(
    batch_number: Option<string>, product_name: Option<string>,
    latitude: real, longitude: real, address: string)

  /** `storeLocation`: the body it posts, or `None` when there is no batch
      data to read (the property access throws and the error is swallowed). */
  function AccessLogRequest(batch: Option<Profile>, loc: LocationData): (r: Option<AccessLogBody>)
    ensures r.Some? <==> batch.Some?
    ensures r.Some? ==>
      && r.value.batch_number == batch.value.batch_number
      && r.value.product_name == batch.value.product_name
      && r.value.latitude == loc.latitude && r.value.longitude == loc.longitude
      && r.value.address == loc.locationName
  {
    match batch
    case None => None
    case Some(b) => Some(AccessLogBody(b.batch_number, b.product_name, loc.latitude, loc.longitude, loc.locationName))
  }

  datatype PipelineOutcome = PipelineOutcome(userLocation: Option<LocationData>, request: Option<AccessLogBody>)

  /** One run of the location pipeline, given the geolocation outcome, the
      geocoder's reply and the batch data the pipeline reads. */
  function LocationPipeline(geo: Geolocation, reply: GeocodeReply, batch: Option<Profile>): (r: PipelineOutcome)
    ensures !geo.Position? ==> r.userLocation.None? && r.request.None?
    ensures geo.Position? ==> r.userLocation == Some(LocationOf(geo.latitude, geo.longitude, reply))
    ensures r.request.Some? <==> geo.Position? && batch.Some?
  {
    match geo
    case Position(lat, lon) =>
      var loc := LocationOf(lat, lon, reply);
      PipelineOutcome(Some(loc), AccessLogRequest(batch, loc))
    case _ => PipelineOutcome(None, None)
  }

  /** The pipeline is started on mount, and the `batchData` its callbacks
      read is the one of that first render: `null`. */
  const MountTimeBatchData: Option<Profile> := None

  /** As written, the access log is therefore never posted, whatever the
      geolocation and geocoding outcomes; the position is still kept. */
  lemma MountTimePipelineNeverLogs(geo: Geolocation, reply: GeocodeReply)
    ensures LocationPipeline(geo, reply, MountTimeBatchData).request.None?
    ensures geo.Position? ==> LocationPipeline(geo, reply, MountTimeBatchData).userLocation.Some?
  {
  }

  /** With the batch data in hand, a position yields exactly one record that
      carries the batch's identity, the coordinates unchanged, and the place
      name (or "Unknown"). */
  lemma PipelineRecord(lat: real, lon: real, reply: GeocodeReply, batch: Profile)
    ensures var out := LocationPipeline(Position(lat, lon), reply, Some(batch));
      out.request.Some? &&
      out.request.value.batch_number == batch.batch_number &&
      out.request.value.product_name == batch.product_name &&
      out.request.value.latitude == lat && out.request.value.longitude == lon &&
      out.request.value.address == (if reply.RequestFailed? || reply.address.None? then UnknownName
                                    else PlaceName(reply.address.value))
  {
  }

  // ----------------------------------------------------------------------
  // Images: buffers rendered as `data:` URLs
  // ----------------------------------------------------------------------

  const JpegDataUrlPrefix := "data:image/jpeg;base64,"

  function ToBytes(numbers: seq<int>): (bytes: seq<Base64.Byte>)
    ensures |bytes| == |numbers|
  {
    seq(|numbers|, i requires 0 <= i < |numbers| => Base64.ToUint8(numbers[i]))
  }

  /** `convertBufferToBase64`: `null` for a missing buffer; otherwise the
      JPEG `data:` URL whose payload is the Base64 encoding (section 4 of RFC
      4648) of the buffer's bytes, each number stored as `Uint8Array` stores
      it, and so decodes back to those bytes. */
  function BufferToDataUrl(buffer: Option<seq<int>>): (r: Option<string>)
    ensures r.None? <==> buffer.None?
    ensures r.Some? ==> r.value == JpegDataUrlPrefix + Base64.Encode(ToBytes(buffer.value))
    ensures r.Some? ==> |JpegDataUrlPrefix| <= |r.value| && r.value[..|JpegDataUrlPrefix|] == JpegDataUrlPrefix
    ensures r.Some? ==> Base64.Decode(r.value[|JpegDataUrlPrefix|..]) == Some(ToBytes(buffer.value))
  {
    match buffer
    case None => None
    case Some(numbers) =>
      var bytes := ToBytes(numbers);
      Base64.BtoaLatin1(bytes);
      Base64.DecodeEncode(bytes);
      var url := JpegDataUrlPrefix + Base64.Btoa(Base64.Latin1(bytes)).value;
      assert url[|JpegDataUrlPrefix|..] == Base64.Encode(bytes);
      Some(url)
  }

  // ----------------------------------------------------------------------
  // The profile payload and what the page displays
  // ----------------------------------------------------------------------

  /** An image field of the payload: a serialised buffer `{ data: [...] }`. */
  datatype Image = Image(data: Option<seq<int>>)

  /** The profile payload (`response.data.data`); dates are kept as the raw
      text the backend sends. */
  datatype Profile = Profile(
    product_name: Option<string>, registration_number: Option<string>,
    batch_number: Option<string>, manufactured_by: Option<string>,
    manufacture_date: Option<string>, expiry_date: Option<string>,
    antidotes_statement: Option<string>, marked_by: Option<string>,
    identification_number: Option<string>, customer_care_details: Option<string>,
    product_image: Option<Image>, cautionary_symbol_image: Option<Image>,
    product_instruction_image: Option<Image>)

  const DefaultProductName := "TATAMIDA 17.8 SL - 100 ML"
  const DefaultRegistrationNumber := "CIR36,589/2001IMIDACLOPRID (SL)21"
  const DefaultBatchNumber := "AK00258"
  const DefaultManufacturer := "Rallis India Ltd"
  const DefaultManufactureDate := "27-May-2022"
  const DefaultExpiryDate := "25-May-2024"
  const DefaultAntidote := "No specific antidote. Treat Symptomatically"
  const DefaultMarketer := "Rallis India Ltd"
  const DefaultIdentificationNumber := "0082395421"
  const DefaultCustomerCare := "Ph No 8108622210, cmc@rallis.com"

  /** A date cell: the payload date in the `en-US` short format, or a literal. */
  datatype DateCell = LocaleDate(raw: string) | DateLiteral(text: string)

  /** An image panel: a `data:` URL, or "No image available" (`None`). */
  datatype ImagePanel = ImagePanel(src: Option<string>)

  datatype ProfileCard = ProfileCard(
    productName: string, registrationNumber: string, batchNumber: string,
    manufacturedBy: string, manufactureDate: DateCell, expiryDate: DateCell,
    antidoteStatement: string, marketedBy: string, identificationNumber: string,
    customerCare: string, productImage: Option<ImagePanel>, cautionaryImage: ImagePanel,
    instructionImage: Option<ImagePanel>, accessLocation: Option<LocationData>)

  /** The page renders a card, or throws while rendering: the cautionary
      image's `.data` is read without checking the image is there. */
  datatype ProfileRender = Card(card: ProfileCard) | RenderError

  function TextOr(v: Option<string>, fallback: string): string
  {
    if Truthy(v) then v.value else fallback
  }

  function DateOr(v: Option<string>, fallback: string): DateCell
  {
    if Truthy(v) then LocaleDate(v.value) else DateLiteral(fallback)
  }

  function Panel(img: Image): ImagePanel
  {
    ImagePanel(BufferToDataUrl(img.data))
  }

  function RenderProfile(p: Profile, userLocation: Option<LocationData>): ProfileRender
  {
    match p.cautionary_symbol_image
    case None => RenderError
    case Some(caution) =>
      Card(ProfileCard(
        TextOr(p.product_name, DefaultProductName),
        TextOr(p.registration_number, DefaultRegistrationNumber),
        TextOr(p.batch_number, DefaultBatchNumber),
        TextOr(p.manufactured_by, DefaultManufacturer),
        DateOr(p.manufacture_date, DefaultManufactureDate),
        DateOr(p.expiry_date, DefaultExpiryDate),
        TextOr(p.antidotes_statement, DefaultAntidote),
        TextOr(p.marked_by, DefaultMarketer),
        TextOr(p.identification_number, DefaultIdentificationNumber),
        TextOr(p.customer_care_details, DefaultCustomerCare),
        if p.product_image.Some? then Some(Panel(p.product_image.value)) else None,
        Panel(caution),
        if p.product_instruction_image.Some? then Some(Panel(p.product_instruction_image.value)) else None,
        userLocation))
  }

  /** A displayed field shows the payload's value when it is truthy and its
      fixed literal otherwise. */
  predicate Shows(shown: string, value: Option<string>, literal: string)
  {
    (Truthy(value) ==> shown == value.value) && (!Truthy(value) ==> shown == literal)
  }

  /** Rendering fails exactly when the cautionary image is missing. Otherwise
      every text field follows its own fallback rule, none is blank, and each
      image panel holds the `data:` URL of that image's buffer. */
  lemma RenderedFields(p: Profile, loc: Option<LocationData>)
    ensures RenderProfile(p, loc).RenderError? <==> p.cautionary_symbol_image.None?
    ensures RenderProfile(p, loc).Card? ==>
      var c := RenderProfile(p, loc).card;
      && Shows(c.productName, p.product_name, DefaultProductName)
      && Shows(c.registrationNumber, p.registration_number, DefaultRegistrationNumber)
      && Shows(c.batchNumber, p.batch_number, DefaultBatchNumber)
      && Shows(c.manufacturedBy, p.manufactured_by, DefaultManufacturer)
      && Shows(c.antidoteStatement, p.antidotes_statement, DefaultAntidote)
      && Shows(c.marketedBy, p.marked_by, DefaultMarketer)
      && Shows(c.identificationNumber, p.identification_number, DefaultIdentificationNumber)
      && Shows(c.customerCare, p.customer_care_details, DefaultCustomerCare)
      && c.productName != "" && c.registrationNumber != "" && c.batchNumber != ""
      && c.manufacturedBy != "" && c.antidoteStatement != "" && c.marketedBy != ""
      && c.identificationNumber != "" && c.customerCare != ""
      && c.manufactureDate == (if Truthy(p.manufacture_date) then LocaleDate(p.manufacture_date.value)
                               else DateLiteral(DefaultManufactureDate))
      && c.expiryDate == (if Truthy(p.expiry_date) then LocaleDate(p.expiry_date.value)
                          else DateLiteral(DefaultExpiryDate))
      && c.cautionaryImage.src == BufferToDataUrl(p.cautionary_symbol_image.value.data)
      && (c.productImage.Some? <==> p.product_image.Some?)
      && (c.instructionImage.Some? <==> p.product_instruction_image.Some?)
      && c.accessLocation == loc
  {
  }

  /** A payload with only batch number, product name and identification
      number (no cautionary image) does not render: the page throws. */
  lemma MinimalPayloadThrows()
    ensures RenderProfile(Profile(Some("P1"), None, Some("B1"), None, None, None, None, None,
                                  Some("ID123"), None, None, None, None), None).RenderError?
  {
  }

  // ----------------------------------------------------------------------
  // The page's state
  // ----------------------------------------------------------------------

  /** `document.body.style`: shared by every component of the page. */
  class BodyStyle {
    var overflow: string

    constructor()
      ensures overflow == ""
    {
      overflow := "";
    }
  }

  datatype ProfileView =
    | LoadingView(text: string)
    | ErrorView(text: string)
    | NotFoundView(text: string, backLink: string)
    | ProfileShown(render: ProfileRender)

  class ProfilePage {
    const identificationNumber: string
    const body: BodyStyle
    var batchData: Option<Profile>
    var loading: bool
    var error: bool
    var zoomedImage: Option<Image>
    var userLocation: Option<LocationData>

    /** Mount: nothing loaded yet; the zoom effect runs with no zoomed image. */
    constructor(identificationNumber: string, body: BodyStyle)
      modifies body
      ensures this.identificationNumber == identificationNumber && this.body == body
      ensures batchData.None? && loading && !error && zoomedImage.None? && userLocation.None?
      ensures body.overflow == "auto"
    {
      this.identificationNumber := identificationNumber;
      this.body := body;
      batchData, loading, error := None, true, false;
      zoomedImage, userLocation := None, None;
      body.overflow := "auto";
    }

    /** `fetchBatchData` settles: with the payload (possibly `null`) or with
        an error. Either way loading ends. */
    method FetchSettled(outcome: Result<Option<Profile>>)
      modifies this
      ensures !loading && userLocation == old(userLocation) && zoomedImage == old(zoomedImage)
      ensures outcome.Ok? ==> batchData == outcome.value && error == old(error)
      ensures outcome.Err? ==> error && batchData == old(batchData)
    {
      match outcome {
        case Ok(data) =>
          batchData := data;
        case Err(_) =>
          error := true;
      }
      loading := false;
    }

    /** The geolocation callback settles. It keeps the location and hands
        the mount-time batch data to `storeLocation`, so no record is posted. */
    method PositionSettled(geo: Geolocation, reply: GeocodeReply) returns (request: Option<AccessLogBody>)
      modifies this
      ensures request == LocationPipeline(geo, reply, MountTimeBatchData).request && request.None?
      ensures geo.Position? ==> userLocation == Some(LocationOf(geo.latitude, geo.longitude, reply))
      ensures !geo.Position? ==> userLocation == old(userLocation)
      ensures batchData == old(batchData) && loading == old(loading) && error == old(error)
      ensures zoomedImage == old(zoomedImage)
    {
      var out := LocationPipeline(geo, reply, MountTimeBatchData);
      if out.userLocation.Some? {
        userLocation := out.userLocation;
      }
      request := out.request;
    }

    /** `closeZoom` on the page-level modal; the effect re-runs only when
        the zoomed image actually changes. */
    method CloseZoom()
      modifies this, body
      ensures zoomedImage.None?
      ensures old(zoomedImage).Some? ==> body.overflow == "auto"
      ensures old(zoomedImage).None? ==> body.overflow == old(body.overflow)
      ensures batchData == old(batchData) && loading == old(loading) && error == old(error)
      ensures userLocation == old(userLocation)
    {
      if zoomedImage.Some? {
        zoomedImage := None;
        body.overflow := "auto";
      }
    }

    /** Teardown: the zoom effect's cleanup restores scrolling. */
    method Unmount()
      modifies body
      ensures body.overflow == "auto"
    {
      body.overflow := "auto";
    }

    /** Loading first, then the error, then a missing batch; only then the
        profile. */
    function View(): (v: ProfileView)
      reads this
      ensures v.LoadingView? <==> loading
      ensures v.ErrorView? <==> !loading && error
      ensures v.NotFoundView? <==> !loading && !error && batchData.None?
      ensures v.NotFoundView? ==> v.backLink == "/batches"
      ensures v.ProfileShown? ==> batchData.Some? && v.render == RenderProfile(batchData.value, userLocation)
    {
      match SelectPhase(loading, error, batchData)
      case Loading => LoadingView("Loading...")
      case Failed => ErrorView("Error loading data")
      case Missing => NotFoundView("Batch not found!", "/batches")
      case Ready(p) => ProfileShown(RenderProfile(p, userLocation))
    }
  }

  /** One zoomable image of the profile: a click zooms it, the overlay or the
      close button closes it, and while it is zoomed the page does not
      scroll. */
  class ZoomableImage {
    const imageData: Option<seq<int>>
    const body: BodyStyle
    var isZoomed: bool
    var mounted: bool

    /** While mounted, the effect for the current zoom state has run: the
        body's overflow is "hidden" when zoomed and "auto" otherwise. */
    ghost predicate ScrollLockAgrees()
      reads this, body
    {
      mounted ==> body.overflow == (if isZoomed then "hidden" else "auto")
    }

    constructor(imageData: Option<seq<int>>, body: BodyStyle)
      modifies body
      ensures this.imageData == imageData && this.body == body
      ensures mounted && !isZoomed && body.overflow == "auto" && ScrollLockAgrees()
    {
      this.imageData := imageData;
      this.body := body;
      isZoomed, mounted := false, true;
      body.overflow := "auto";
    }

    /** The preview shown in the page: the image, or "No image available". */
    function Preview(): (p: ImagePanel)
      ensures p.src.Some? <==> imageData.Some?
    {
      ImagePanel(BufferToDataUrl(imageData))
    }

    /** `handleImageClick`: `setIsZoomed(true)` changes the state only when
        the image is not zoomed yet; only then does the effect run again (its
        cleanup writes "auto", which the new effect overwrites). On a zoomed
        image nothing runs, and the lock already in place is kept. */
    method Click()
      requires mounted && ScrollLockAgrees()
      modifies this, body
      ensures mounted && isZoomed && body.overflow == "hidden" && ScrollLockAgrees()
    {
      if !isZoomed {
        isZoomed := true;
        body.overflow := "hidden";
      }
    }

    /** `closeZoom`, from the overlay or from the close button:
        `setIsZoomed(false)` re-runs the effect only on a zoomed image. On an
        unzoomed one nothing runs, and the body is "auto" because the
        invariant required here says the last effect wrote it. */
    method Close()
      requires mounted && ScrollLockAgrees()
      modifies this, body
      ensures mounted && !isZoomed && body.overflow == "auto" && ScrollLockAgrees()
    {
      if isZoomed {
        isZoomed := false;
        body.overflow := "auto";
      }
    }

    /** Teardown (leaving the page, or the page re-rendering, which recreates
        this component): the cleanup restores scrolling whatever the state. */
    method Unmount()
      requires mounted
      modifies this, body
      ensures !mounted && !isZoomed && body.overflow == "auto"
    {
      mounted, isZoomed := false, false;
      body.overflow := "auto";
    }
  }
}
