/**
 * The four click handlers of src/public/script.js (`showRandomDog`,
 * `showRandomDogByBreed`, `showSubBreed`, `showAllBreeds`): query, render the
 * result, and on any thrown error render a message chosen per handler. The
 * breed text field's value and the network are parameters.
 */
module Handlers {
  import opened Results
  import opened Api
  import opened Render

  datatype Handler = RandomDog | RandomDogByBreed | SubBreed | AllBreeds

  const AllBreedsErrorPrefix := "Failed to fetch all breeds: "

  /**
   * The text each handler's catch block displays for a thrown error: the two
   * image handlers only the default, the sub-breed handler "No sub-breeds
   * found!" exactly for that error and the default otherwise, the all-breeds
   * handler the error's message after its prefix.
   */
  function ErrorText(h: Handler, e: Error): (text: string)
    ensures h == RandomDog || h == RandomDogByBreed ==> text == "Breed not found!"
    ensures h == SubBreed ==> text in {"Breed not found!", "No sub-breeds found!"}
    ensures h == SubBreed ==> (text == "No sub-breeds found!" <==> e == NoSubBreeds)
    ensures h == AllBreeds ==> "Failed to fetch all breeds: " <= text
                               && text[|AllBreedsErrorPrefix|..] == e.message
  {
    match h
    case RandomDog => DefaultErrorMessage
    case RandomDogByBreed => DefaultErrorMessage
    case SubBreed => if e.message == NoSubBreedsMessage then e.message else DefaultErrorMessage
    case AllBreeds => AllBreedsErrorPrefix + e.message
  }

  /** The query a handler makes; `input` is the breed field's value, which only two handlers read. */
  function Query(h: Handler, input: string, server: string -> FetchOutcome): Result<Payload, Error>
  {
    match h
    case RandomDog => FetchDogImageUrl(server)
    case RandomDogByBreed => FetchDogImageUrl(server, input)
    case SubBreed => FetchSubBreedList(server, input)
    case AllBreeds => FetchAllBreeds(server)
  }

  /** The URL a handler requests. */
  function RequestUrl(h: Handler, input: string): string
  {
    match h
    case RandomDog => DogImageUrl(DefaultBreed)
    case RandomDogByBreed => DogImageUrl(input)
    case SubBreed => SubBreedListUrl(input)
    case AllBreeds => AllBreedsUrl
  }

  /**
   * The container's children after a handler runs: the rendered element, or one
   * paragraph with the handler's error text when the query or the rendering
   * throws. Either way there is exactly one child.
   */
  function Shown(h: Handler, input: string, server: string -> FetchOutcome): (view: seq<Node>)
    ensures |view| == 1
    ensures view[0].P? <==>
              Query(h, input, server).Failure? || RenderResult(Query(h, input, server).value).Failure?
  {
    match Query(h, input, server)
    case Failure(e) => [P(ErrorText(h, e))]
    case Success(message) =>
      match RenderResult(message)
      case Success(child) => [child]
      case Failure(e) => [P(ErrorText(h, e))]
  }

  /** `showRandomDog`. */
  method ShowRandomDog(content: Content, server: string -> FetchOutcome)
    modifies content
    ensures content.children == Shown(RandomDog, "", server)
  {
    var result := FetchDogImageUrl(server);
    if result.Failure? {
      content.PopulateWithError();
      return;
    }
    var thrown := content.PopulateWithResult(result.value);
    if thrown.Some? {
      content.PopulateWithError();
    }
  }

  /** `showRandomDogByBreed`, with `breed` the value of the breed field. */
  method ShowRandomDogByBreed(content: Content, breed: string, server: string -> FetchOutcome)
    modifies content
    ensures content.children == Shown(RandomDogByBreed, breed, server)
  {
    var result := FetchDogImageUrl(server, breed);
    if result.Failure? {
      content.PopulateWithError();
      return;
    }
    var thrown := content.PopulateWithResult(result.value);
    if thrown.Some? {
      content.PopulateWithError();
    }
  }

  /** `showSubBreed`, with `breed` the value of the breed field. */
  method ShowSubBreed(content: Content, breed: string, server: string -> FetchOutcome)
    modifies content
    ensures content.children == Shown(SubBreed, breed, server)
  {
    var result := FetchSubBreedList(server, breed);
    var thrown: Option<Error>;
    if result.Failure? {
      thrown := Some(result.error);
    } else {
      thrown := content.PopulateWithResult(result.value);
    }
    if thrown.Some? {
      if thrown.value.message == NoSubBreedsMessage {
        content.PopulateWithError(thrown.value.message);
      } else {
        content.PopulateWithError();
      }
    }
  }

  /** `showAllBreeds`. */
  method ShowAllBreeds(content: Content, server: string -> FetchOutcome)
    modifies content
    ensures content.children == Shown(AllBreeds, "", server)
  {
    var result := FetchAllBreeds(server);
    var thrown: Option<Error>;
    if result.Failure? {
      thrown := Some(result.error);
    } else {
      thrown := content.PopulateWithResult(result.value);
    }
    if thrown.Some? {
      content.PopulateWithError(AllBreedsErrorPrefix + thrown.value.message);
    }
  }

  /**
   * "No sub-breeds found!" reaches the sub-breed handler's display exactly when
   * the sub-breed list was fetched and is empty; every other failure shows the
   * default text.
   */
  lemma SubBreedMessageExactlyForEmptyList(breed: string, server: string -> FetchOutcome)
    ensures (Shown(SubBreed, breed, server) == [P(NoSubBreedsMessage)])
            <==> (FetchSubBreedList(server, breed) == Success(List([])))
  {
    var view := Shown(SubBreed, breed, server);
    match FetchSubBreedList(server, breed)
    case Failure(e) =>
      assert e == FetchFailed;
      assert view == [P(DefaultErrorMessage)];
    case Success(message) =>
      match RenderResult(message)
      case Success(child) =>
        assert view == [child];
        assert !child.P?;
      case Failure(e) =>
        assert view == [P(ErrorText(SubBreed, e))];
  }

  /** A 404 shows the default text in every handler but the all-breeds one, which shows the collapsed message. */
  lemma NotFoundShowsFailure(h: Handler, input: string, server: string -> FetchOutcome, body: Option<Envelope>)
    requires server(RequestUrl(h, input)) == Responded(404, body)
    ensures h != AllBreeds ==> Shown(h, input, server) == [P(DefaultErrorMessage)]
    ensures h == AllBreeds ==>
              Shown(h, input, server) == [P(AllBreedsErrorPrefix + FetchFailedMessage)]
  {
  }

  /**
   * An in-range response whose envelope status is not "success" shows the
   * default text in every handler but the all-breeds one, which shows the
   * collapsed message after its prefix.
   */
  lemma NonSuccessEnvelopeShowsDefault(h: Handler, input: string, server: string -> FetchOutcome,
                                       code: int, status: string, message: Payload)
    requires 200 <= code <= 204 && status != "success"
    requires server(RequestUrl(h, input)) == Responded(code, Some(Envelope(status, message)))
    ensures h != AllBreeds ==> Shown(h, input, server) == [P(DefaultErrorMessage)]
    ensures h == AllBreeds ==>
              Shown(h, input, server) == [P(AllBreedsErrorPrefix + FetchFailedMessage)]
  {
  }

  /** In every handler, an accepted envelope carrying an image URL shows exactly that image. */
  lemma ImageUrlShownAsImage(h: Handler, input: string, server: string -> FetchOutcome, code: int, url: string)
    requires 200 <= code <= 204 && StartsWith(url, "http")
    requires server(RequestUrl(h, input)) == Responded(code, Some(Envelope("success", Text(url))))
    ensures Shown(h, input, server) == [Img(url, ImageAlt)]
  {
  }

  /** The map {"hound": ["afghan", "basset"], "pug": []} renders as two items, only the first with a nested list. */
  lemma HoundAndPugRendering(server: string -> FetchOutcome)
    requires server(AllBreedsUrl) == Responded(200, Some(Envelope("success",
               BreedMap([("hound", ["afghan", "basset"]), ("pug", [])]))))
    ensures Shown(AllBreeds, "", server) ==
              [Ol([Li("hound", Some(Ul([Li("afghan", None), Li("basset", None)]))),
                   Li("pug", None)])]
  {
    var entries := [("hound", ["afghan", "basset"]), ("pug", [])];
    assert ListItems(["afghan", "basset"]) == [Li("afghan", None), Li("basset", None)];
    assert BreedItems(entries) == [BreedItem("hound", ["afghan", "basset"]), BreedItem("pug", [])];
  }
}
