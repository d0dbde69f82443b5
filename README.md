# Dog glossary: a verified model of the page script's core

The dog glossary page has four buttons and one text field. Each button queries
the public dog.ceo REST API for a random image, an image of a chosen breed, a
breed's sub-breeds, or every breed with its sub-breeds, then renders the answer
into the page's one content container. This project models the part of
`src/public/script.js` whose behaviour can be stated:

- **breed-name normalisation** (`normalizeBreedName`: trim, then lower-case) and
  the **URLs** the three query functions build (`breed_names.dfy`, `api.dfy`);
- the **response classification** in `fetchMessage`. A 404, any status outside
  200..204, a body that does not decode, or an envelope whose `status` is not
  `"success"` is refused. Every refusal, and a transport failure too, becomes the
  one error "Failed to fetch dog image". Success returns the envelope's `message`
  unchanged (`api.dfy`);
- **rendering**: the container is an object whose children the operations
  replace (`clearContent`, `populateContentWithResult`,
  `populateContentWithError`). The list generators are loop methods proved
  against the functions that specify them (`render.dfy`);
- the **handlers** `showRandomDog`, `showRandomDogByBreed`, `showSubBreed` and
  `showAllBreeds`, including which error text each one displays
  (`handlers.dfy`).

The network is a parameter `server: string -> FetchOutcome`. It gives, for each
URL, what `fetch` and `response.json()` would produce: a transport failure, or a
status code with a decoded envelope or a body that does not decode. The breed
field's value is a parameter of the two handlers that read it.

`fetchMessage` throws a different error for each cause, but its own catch
(src/public/script.js:135-137) replaces every one with "Failed to fetch dog
image". The model keeps the cause as a tagged `Rejection` in `CheckResponse` and
collapses it in `FetchMessage`, as the code does.

Two details of the code are modelled as written:

- The guard `!subBreedArray.length > 0` parses as `(!length) > 0`.
  `EmptyGuardAsWritten` proves that it holds exactly for the empty list.
- A string message that does not start with `"http"` falls through to
  `generateAllBreedsOlElement`. For the empty string it yields an empty `ol`. For
  any other string it throws, because the first character's entry reaches
  `subBreedArray.forEach` and strings have no `forEach`. The handlers then show
  their error text.

## Model

| member | source | states |
|---|---|---|
| `BreedNames.Trim` | src/public/script.js:117 | `trim()`: the result has no whitespace at either end and is the middle of the input between an all-whitespace prefix and an all-whitespace suffix |
| `BreedNames.ToLower` | src/public/script.js:117 | lower-casing keeps the length and maps each character to its lower-case form |
| `BreedNames.NormalizeBreedName` | src/public/script.js:116-118 | the normalised name has no leading or trailing whitespace and no upper-case letter, and is no longer than the input |
| `BreedNames.NormalizeFixesNormalized` | src/public/script.js:116-118 | a name that is already trimmed and lower-case is returned unchanged |
| `BreedNames.NormalizeIdempotent` | src/public/script.js:116-118 | normalising twice equals normalising once |
| `Api.DogImageUrl` | src/public/script.js:93-101 | the fixed random-image URL when the normalised name is "random"; otherwise `https://dog.ceo/api/breed/` + normalised name + `/images/random`, so the second normalisation on line 100 changes nothing |
| `Api.RandomUrlExactlyForRandom` | src/public/script.js:95-101 | the random-image URL is requested if and only if the normalised name is "random" |
| `Api.DefaultBreedSelectsRandomUrl` | src/public/script.js:93-97 | the default argument selects the random-image URL |
| `Api.PaddedRandomSelectsRandomUrl` | src/public/script.js:95-97 | `" Random "` selects the random-image URL |
| `Api.DogImageUrlSeparatesBreeds` | src/public/script.js:99-101 | two names with different normalisations, neither "random", build different image URL strings |
| `Api.SubBreedListUrl` | src/public/script.js:105-107 | the sub-breed URL is `https://dog.ceo/api/breed/`, then exactly the normalised name, then `/list` |
| `Api.SubBreedListUrlSeparatesBreeds` | src/public/script.js:105-107 | names with different normalisations build different sub-breed URL strings |
| `Api.CheckResponse` | src/public/script.js:121-133 | the total classification: transport failure; 404 exactly for status 404; unexpected status exactly for other codes outside 200..204; malformed body exactly for an in-range response that does not decode; non-success exactly for an in-range decoded envelope whose status is not "success"; success exactly on an accepted response, carrying the envelope's message |
| `Api.FetchMessage` | src/public/script.js:120-138 | succeeds if and only if the response is in 200..204 with a decoded envelope whose status is "success", returning its message unchanged; every failure is the single "Failed to fetch dog image" |
| `Api.StatusOutsideRangeRefused` | src/public/script.js:123-128 | every status outside 200..204, 404 included, is refused with the collapsed error |
| `Api.FetchDogImageUrl` | src/public/script.js:93-103 | succeeds exactly when the response for the image URL is accepted, returning that envelope's message; its only error is the collapsed one |
| `Api.FetchSubBreedList` | src/public/script.js:105-109 | succeeds exactly when the response for the sub-breed URL is accepted, returning that envelope's message; its only error is the collapsed one |
| `Api.FetchAllBreeds` | src/public/script.js:111-114 | succeeds exactly when the response for the fixed all-breeds URL is accepted, returning that envelope's message; its only error is the collapsed one |
| `Render.ImgElement` | src/public/script.js:161-166 | an `img` whose `src` is the given URL and whose alt text is "random dog image" |
| `Render.ListItems` | src/public/script.js:173-177 | one `li` per name, in input order, with nothing nested |
| `Render.BreedItems` | src/public/script.js:184-199 | one breed `li` per map entry, in entry order |
| `Render.EmptyGuardAsWritten` | src/public/script.js:169-171 | the guard `!subBreedArray.length > 0` holds if and only if the list is empty |
| `Render.GenerateSubBreedOl` | src/public/script.js:168-179 | throws "No sub-breeds found!" on the empty list, else an `ol` of one `li` per sub-breed in order |
| `Render.GenerateAllBreedsOl` | src/public/script.js:181-201 | the `ol` of one `li` per breed in entry order, each with a nested `ul` of its sub-breeds when it has any |
| `Render.AllBreedsNesting` | src/public/script.js:187-197 | a breed's `li` carries a nested `ul` if and only if its sub-breed list is non-empty, and that `ul` has one `li` per sub-breed, in order |
| `Render.RenderResult` | src/public/script.js:140-153 | a URL string gives the image, a non-empty list a flat `ol` of the same length, a map an `ol` of one item per entry; the error "No sub-breeds found!" arises exactly for the empty list; any other error is the TypeError of a non-URL string; a rendered element is never a paragraph |
| `Render.Content.Clear` | src/public/script.js:155-159 | removing the first child until none is left empties the container |
| `Render.Content.PopulateWithResult` | src/public/script.js:140-153 | on success the container holds exactly the rendered element; when rendering throws it is left empty and the error is passed on |
| `Render.Content.PopulateWithError` | src/public/script.js:203-208 | the container holds exactly one paragraph with the given message, "Breed not found!" by default |
| `Handlers.Shown` | src/public/script.js:42-90 | after any handler the container holds exactly one child, and it is a paragraph exactly when the query or the rendering threw |
| `Handlers.ShowRandomDog` | src/public/script.js:42-51 | leaves the container as `Shown` describes for the default breed |
| `Handlers.ShowRandomDogByBreed` | src/public/script.js:53-63 | leaves the container as `Shown` describes for the typed breed |
| `Handlers.ShowSubBreed` | src/public/script.js:65-80 | leaves the container as `Shown` describes for the sub-breed query |
| `Handlers.ShowAllBreeds` | src/public/script.js:82-90 | leaves the container as `Shown` describes for the all-breeds query |
| `Handlers.ErrorText` | src/public/script.js:47-89 | the image handlers show only "Breed not found!"; the sub-breed handler shows "No sub-breeds found!" exactly for that error and the default text otherwise; the all-breeds handler shows "Failed to fetch all breeds: " followed by the error's message |
| `Handlers.SubBreedMessageExactlyForEmptyList` | src/public/script.js:65-80 | the sub-breed handler displays "No sub-breeds found!" if and only if the sub-breed list was fetched and is empty |
| `Handlers.NotFoundShowsFailure` | src/public/script.js:123-125 | a 404 shows "Breed not found!" in the image and sub-breed handlers and "Failed to fetch all breeds: Failed to fetch dog image" in the all-breeds handler |
| `Handlers.NonSuccessEnvelopeShowsDefault` | src/public/script.js:130-132 | in every handler but the all-breeds one, an in-range response whose envelope status is not "success" shows "Breed not found!"; the all-breeds handler shows "Failed to fetch all breeds: Failed to fetch dog image" |
| `Handlers.ImageUrlShownAsImage` | src/public/script.js:143-145 | in every handler, a response in 200..204 with a success envelope carrying an `http` URL shows exactly one image with that source |
| `Handlers.HoundAndPugRendering` | src/public/script.js:181-201 | `{"hound": ["afghan", "basset"], "pug": []}` renders as two items, only "hound" with a nested two-item list |

Helpers without a row of their own: `Api.Accepted` (the success condition of
`fetchMessage`), `Handlers.Query` and `Handlers.RequestUrl` (the query and URL
each handler uses), `Render.SubBreedOl`, `Render.AllBreedsOl` and
`Render.BreedItem` (the values the generator methods are proved to return), and
`Render.Content.AppendChild` (the DOM's `appendChild`).

## Left out

- `fetch` and `response.json()` are network I/O and JSON decoding. They are replaced by the `server` parameter, which gives their result per URL.
- DOM APIs (`getElementById`, `createElement`, `appendChild`) are replaced by the `Node` datatype and the `Content` container. `innerHTML` is treated as plain text. HTML parsing of breed names is not modelled.
- Event-listener registration and the `buttonClickEventHandler` dispatch are UI wiring and are not modelled. That includes its throw for an unknown button.
- Overlapping clicks that race to render are asynchronous, and the model is sequential.
- `console.error` logging in `showRandomDog` has no effect on the page.
- BreedNames.ToLower: lower-cases only the ASCII letters A-Z. Locale rules and Unicode case mapping of `toLocaleLowerCase` are not modelled, and neither are mappings that change a string's length.
- Envelope messages of other JSON shapes are not modelled: a missing or `null` `message`, numbers, objects whose values are not arrays. `Payload` has only the three shapes the API sends. A success envelope without a `message` makes `fetchMessage` return `undefined`, and rendering it throws a TypeError from `Object.entries`; the model does not cover that path.
- An envelope without a `status` field is modelled as a `status` that is not "success".
- `fetch`'s URL parsing is not modelled: percent-encoding, dot-segment removal. `server` is keyed by the URL string the code builds, so two different strings may name one resource.
- The message texts that `fetchMessage` throws before its catch are not modelled. Each cause is a `Rejection` value carrying the status code or envelope status. The catch discards them.
- The TypeError message for a non-empty non-URL string is V8's wording. Other engines word it differently, which changes only the text after "Failed to fetch all breeds: ".
