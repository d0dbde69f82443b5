/**
 * The request layer of src/public/script.js: the URL each query builds
 * (`fetchDogImageUrl`, `fetchSubBreedList`, `fetchAllBreeds`) and the decision
 * `fetchMessage` makes over the HTTP status and the decoded JSON envelope.
 * The network is a parameter: `server(url)` is what `fetch(url)` and
 * `response.json()` produce for that URL.
 */
module Api {
  import opened Results
  import opened BreedNames

  /** The `message` of an envelope, in the three shapes the API sends. */
  datatype Payload =
    | Text(text: string)                                  // an image URL
    | List(names: seq<string>)                            // a breed's sub-breeds
    | BreedMap(entries: seq<(string, seq<string>)>)       // every breed with its sub-breeds, in `Object.entries` order

  /** The decoded JSON body `{ status, message }`. */
  datatype Envelope = Envelope(status: string, message: Payload)

  /** What `fetch` gives: a rejection, or a status code and a body that `json()` decodes or fails on (None). */
  datatype FetchOutcome =
    | NetworkError
    | Responded(statusCode: int, body: Option<Envelope>)

  /** The reasons `fetchMessage` throws before its catch collapses them. */
  datatype Rejection =
    | TransportFailed
    | NotFound
    | UnexpectedStatus(code: int)
    | MalformedBody
    | NotSuccess(status: string)

  /** A JavaScript `Error`, known by its message. */
  datatype Error = Error(message: string)

  const FetchFailedMessage := "Failed to fetch dog image"
  const FetchFailed := Error(FetchFailedMessage)

  /** The default argument of `fetchDogImageUrl`. */
  const DefaultBreed := "random"
  const RandomImageUrl := "https://dog.ceo/api/breeds/image/random"
  const BreedUrlPrefix := "https://dog.ceo/api/breed/"
  const ImagesSuffix := "/images/random"
  const ListSuffix := "/list"
  const AllBreedsUrl := "https://dog.ceo/api/breeds/list/all"

  /**
   * The URL `fetchDogImageUrl` requests. The name is normalised, compared with
   * "random", and normalised a second time when it is put into the path; the
   * second normalisation changes nothing.
   */
  function DogImageUrl(breed: string): (url: string)
    ensures NormalizeBreedName(breed) == "random" ==> url == RandomImageUrl
    ensures NormalizeBreedName(breed) != "random" ==>
              url == BreedUrlPrefix + NormalizeBreedName(breed) + ImagesSuffix
  {
    var b := NormalizeBreedName(breed);
    if b == "random" then
      RandomImageUrl
    else
      NormalizeIdempotent(breed);
      BreedUrlPrefix + NormalizeBreedName(b) + ImagesSuffix
  }

  /**
   * The URL `fetchSubBreedList` requests: the fixed prefix, then exactly the
   * normalised name, then "/list".
   */
  function SubBreedListUrl(breed: string): (url: string)
    ensures |url| == |BreedUrlPrefix| + |NormalizeBreedName(breed)| + |ListSuffix|
    ensures url[..|BreedUrlPrefix|] == BreedUrlPrefix
    ensures url[|url| - |ListSuffix|..] == ListSuffix
    ensures url[|BreedUrlPrefix|..|url| - |ListSuffix|] == NormalizeBreedName(breed)
  {
    BreedUrlPrefix + NormalizeBreedName(breed) + ListSuffix
  }

  /** The fixed random-image URL is chosen exactly when the normalised name is "random". */
  lemma RandomUrlExactlyForRandom(breed: string)
    ensures DogImageUrl(breed) == RandomImageUrl <==> NormalizeBreedName(breed) == "random"
  {
    if NormalizeBreedName(breed) != "random" {
      var url := DogImageUrl(breed);
      assert url[|BreedUrlPrefix| - 1] == '/';
      assert RandomImageUrl[|BreedUrlPrefix| - 1] == 's';
    }
  }

  /** The default argument of `fetchDogImageUrl` selects the fixed random-image URL. */
  lemma DefaultBreedSelectsRandomUrl()
    ensures DogImageUrl(DefaultBreed) == RandomImageUrl
  {
    NormalizeFixesNormalized(DefaultBreed);
    RandomUrlExactlyForRandom(DefaultBreed);
  }

  /** Padding and capitals do not hide "random": " Random " selects the fixed URL. */
  lemma PaddedRandomSelectsRandomUrl()
    ensures DogImageUrl(" Random ") == RandomImageUrl
  {
    PaddedRandomNormalizes();
    RandomUrlExactlyForRandom(" Random ");
  }

  lemma PaddedRandomNormalizes()
    ensures NormalizeBreedName(" Random ") == "random"
  {
    assert TrimStart(" Random ") == "Random ";
    assert TrimEnd("Random ") == "Random";
    assert ToLower("Random") == "random";
  }

  /** Two names with different normalisations (neither "random") build different image URL strings. */
  lemma DogImageUrlSeparatesBreeds(a: string, b: string)
    requires NormalizeBreedName(a) != "random" && NormalizeBreedName(b) != "random"
    requires NormalizeBreedName(a) != NormalizeBreedName(b)
    ensures DogImageUrl(a) != DogImageUrl(b)
  {
    SegmentDeterminesUrl(BreedUrlPrefix, NormalizeBreedName(a), NormalizeBreedName(b), ImagesSuffix);
  }

  /** A path segment between a fixed prefix and suffix is determined by the whole string. */
  lemma SegmentDeterminesUrl(prefix: string, x: string, y: string, suffix: string)
    requires x != y
    ensures prefix + x + suffix != prefix + y + suffix
  {
    if |x| == |y| {
      var k :| 0 <= k < |x| && x[k] != y[k];
      assert (prefix + x + suffix)[|prefix| + k] == x[k];
      assert (prefix + y + suffix)[|prefix| + k] == y[k];
    } else {
      assert |prefix + x + suffix| != |prefix + y + suffix|;
    }
  }

  /** Two names with different normalisations build different sub-breed URL strings. */
  lemma SubBreedListUrlSeparatesBreeds(a: string, b: string)
    requires NormalizeBreedName(a) != NormalizeBreedName(b)
    ensures SubBreedListUrl(a) != SubBreedListUrl(b)
  {
    SegmentDeterminesUrl(BreedUrlPrefix, NormalizeBreedName(a), NormalizeBreedName(b), ListSuffix);
  }

  /** A response `fetchMessage` accepts. */
  predicate Accepted(outcome: FetchOutcome)
  {
    && outcome.Responded?
    && 200 <= outcome.statusCode <= 204
    && outcome.body.Some?
    && outcome.body.value.status == "success"
  }

  /**
   * The checks `fetchMessage` makes, in its order: transport, 404, the 200..204
   * range, JSON decoding, the envelope's status.
   */
  function CheckResponse(outcome: FetchOutcome): (r: Result<Payload, Rejection>)
    ensures r == Failure(TransportFailed) <==> outcome.NetworkError?
    ensures r == Failure(NotFound) <==> outcome.Responded? && outcome.statusCode == 404
    ensures r.Failure? && r.error.UnexpectedStatus? <==>
              outcome.Responded? && outcome.statusCode != 404
              && (outcome.statusCode < 200 || outcome.statusCode > 204)
    ensures r == Failure(MalformedBody) <==>
              outcome.Responded? && 200 <= outcome.statusCode <= 204 && outcome.body.None?
    ensures r.Failure? && r.error.UnexpectedStatus? ==> r.error.code == outcome.statusCode
    ensures r.Failure? && r.error.NotSuccess? ==> r.error.status == outcome.body.value.status
    ensures r.Failure? && r.error.NotSuccess? <==>
              outcome.Responded? && 200 <= outcome.statusCode <= 204
              && outcome.body.Some? && outcome.body.value.status != "success"
    ensures r.Success? <==> Accepted(outcome)
    ensures r.Success? ==> r.value == outcome.body.value.message
  {
    match outcome
    case NetworkError => Failure(TransportFailed)
    case Responded(code, body) =>
      if code == 404 then Failure(NotFound)
      else if code < 200 || code > 204 then Failure(UnexpectedStatus(code))
      else match body
        case None => Failure(MalformedBody)
        case Some(envelope) =>
          if envelope.status != "success" then Failure(NotSuccess(envelope.status))
          else Success(envelope.message)
  }

  /**
   * `fetchMessage`: succeeds exactly on an accepted response, with the
   * envelope's message unchanged; every failure, whatever its reason, is the one
   * error "Failed to fetch dog image".
   */
  function FetchMessage(outcome: FetchOutcome): (r: Result<Payload, Error>)
    ensures r.Success? <==> Accepted(outcome)
    ensures r.Success? ==> r.value == outcome.body.value.message
    ensures r.Failure? ==> r.error == FetchFailed
  {
    match CheckResponse(outcome)
    case Success(message) => Success(message)
    case Failure(_) => Failure(FetchFailed)
  }

  /** The 404 check is subsumed by the range check: every status outside 200..204, 404 included, is refused. */
  lemma StatusOutsideRangeRefused(outcome: FetchOutcome)
    requires outcome.Responded?
    requires outcome.statusCode < 200 || outcome.statusCode > 204
    ensures FetchMessage(outcome) == Failure(FetchFailed)
  {
  }

  /** `fetchDogImageUrl(breed)`: the collapsed outcome of requesting the image URL. */
  function FetchDogImageUrl(server: string -> FetchOutcome, breed: string := DefaultBreed): (r: Result<Payload, Error>)
    ensures r.Success? <==> Accepted(server(DogImageUrl(breed)))
    ensures r.Success? ==> r.value == server(DogImageUrl(breed)).body.value.message
    ensures r.Failure? ==> r.error == FetchFailed
  {
    FetchMessage(server(DogImageUrl(breed)))
  }

  /** `fetchSubBreedList(breed)`: the collapsed outcome of requesting the sub-breed list URL. */
  function FetchSubBreedList(server: string -> FetchOutcome, breed: string): (r: Result<Payload, Error>)
    ensures r.Success? <==> Accepted(server(SubBreedListUrl(breed)))
    ensures r.Success? ==> r.value == server(SubBreedListUrl(breed)).body.value.message
    ensures r.Failure? ==> r.error == FetchFailed
  {
    FetchMessage(server(SubBreedListUrl(breed)))
  }

  /** `fetchAllBreeds()`: the collapsed outcome of requesting the fixed all-breeds URL. */
  function FetchAllBreeds(server: string -> FetchOutcome): (r: Result<Payload, Error>)
    ensures r.Success? <==> Accepted(server(AllBreedsUrl))
    ensures r.Success? ==> r.value == server(AllBreedsUrl).body.value.message
    ensures r.Failure? ==> r.error == FetchFailed
  {
    FetchMessage(server(AllBreedsUrl))
  }
}
