/**
 * Rendering into the page's one content container (`contentDiv` in
 * src/public/script.js). DOM elements are abstract nodes; the container is an
 * object whose list of children the operations replace.
 */
module Render {
  import opened Results
  import opened Api

  /** The elements the script creates. `Li.nested` is the `ul` appended under a breed, if any. */
  datatype Node =
    | Img(src: string, alt: string)
    | Ol(items: seq<Node>)
    | Ul(items: seq<Node>)
    | Li(text: string, nested: Option<Node>)
    | P(text: string)

  const ImageAlt := "random dog image"
  const NoSubBreedsMessage := "No sub-breeds found!"
  const NoSubBreeds := Error(NoSubBreedsMessage)
  /**
   * The TypeError a non-empty string raises in `generateAllBreedsOlElement`: the
   * first character's entry reaches `subBreedArray.forEach`, which strings lack
   * (V8's wording), and the throw ends the outer `forEach`.
   */
  const NotIterableMessage := "subBreedArray.forEach is not a function"
  const NotIterable := Error(NotIterableMessage)
  /** The default argument of `populateContentWithError`. */
  const DefaultErrorMessage := "Breed not found!"

  /** `generateImgElement`. */
  function ImgElement(url: string): (n: Node)
    ensures n.Img? && n.src == url && n.alt == "random dog image"
  {
    Img(url, ImageAlt)
  }

  /** One `li` per name, in order, with nothing nested. */
  function ListItems(names: seq<string>): (items: seq<Node>)
    ensures |items| == |names|
    ensures forall k :: 0 <= k < |names| ==> items[k] == Li(names[k], None)
  {
    if names == [] then [] else [Li(names[0], None)] + ListItems(names[1..])
  }

  /** The `li` of one breed: a nested `ul` of its sub-breeds exactly when it has some. */
  function BreedItem(breed: string, subBreeds: seq<string>): Node
  {
    Li(breed, if |subBreeds| > 0 then Some(Ul(ListItems(subBreeds))) else None)
  }

  /** One breed `li` per entry, in entry order. */
  function BreedItems(entries: seq<(string, seq<string>)>): (items: seq<Node>)
    ensures |items| == |entries|
    ensures forall k :: 0 <= k < |entries| ==> items[k] == BreedItem(entries[k].0, entries[k].1)
  {
    if entries == [] then [] else [BreedItem(entries[0].0, entries[0].1)] + BreedItems(entries[1..])
  }

  /**
   * The guard `!subBreedArray.length > 0` as JavaScript parses it,
   * `(!length) > 0`: the negated length is a boolean, compared as 1 or 0.
   * It holds exactly for the empty list.
   */
  function EmptyGuardAsWritten(length: nat): (throws: bool)
    ensures throws <==> length == 0
  {
    var negated := length == 0;
    (if negated then 1 else 0) > 0
  }

  /** What `generateSubBreedOlElement` returns or throws. */
  function SubBreedOl(names: seq<string>): Result<Node, Error>
  {
    if EmptyGuardAsWritten(|names|) then Failure(NoSubBreeds) else Success(Ol(ListItems(names)))
  }

  /** What `generateAllBreedsOlElement` returns for a breed map. */
  function AllBreedsOl(entries: seq<(string, seq<string>)>): Node
  {
    Ol(BreedItems(entries))
  }

  predicate StartsWith(s: string, prefix: string)
  {
    prefix <= s
  }

  /**
   * The element `populateContentWithResult` appends for a message, or the error
   * it throws. A string that does not start with "http" falls through to
   * `generateAllBreedsOlElement`, where `Object.entries` of the string pairs each
   * index with a one-character string: the empty string gives an empty `ol`,
   * any other string throws.
   *
   * The shape follows the message: an image for a URL, a flat list for a
   * non-empty list of names, the all-breeds list for a map, and the error
   * "No sub-breeds found!" exactly for the empty list.
   */
  function RenderResult(message: Payload): (r: Result<Node, Error>)
    ensures message.Text? && StartsWith(message.text, "http") ==>
              r == Success(Img(message.text, ImageAlt))
    ensures message.List? && message.names != [] ==>
              r.Success? && r.value.Ol? && |r.value.items| == |message.names|
    ensures message.BreedMap? ==>
              r.Success? && r.value.Ol? && |r.value.items| == |message.entries|
    ensures r == Failure(NoSubBreeds) <==> message == List([])
    ensures r.Failure? ==> r.error in {NoSubBreeds, NotIterable}
    ensures r.Success? ==> !r.value.P?
  {
    match message
    case Text(s) =>
      if StartsWith(s, "http") then Success(ImgElement(s))
      else if s == [] then Success(Ol([]))
      else Failure(NotIterable)
    case List(names) => SubBreedOl(names)
    case BreedMap(entries) => Success(AllBreedsOl(entries))
  }

  /** In the all-breeds list, a breed's item carries a nested `ul` exactly when it has sub-breeds, one `li` each, in order. */
  lemma AllBreedsNesting(entries: seq<(string, seq<string>)>, k: nat)
    requires k < |entries|
    ensures AllBreedsOl(entries).items[k].text == entries[k].0
    ensures AllBreedsOl(entries).items[k].nested.Some? <==> |entries[k].1| > 0
    ensures AllBreedsOl(entries).items[k].nested.Some? ==>
              var ul := AllBreedsOl(entries).items[k].nested.value;
              ul.Ul? && |ul.items| == |entries[k].1|
              && forall j :: 0 <= j < |entries[k].1| ==> ul.items[j] == Li(entries[k].1[j], None)
  {
  }

  /** `generateSubBreedOlElement`: throws on the empty list, else appends one `li` per name. */
  method GenerateSubBreedOl(subBreeds: seq<string>) returns (r: Result<Node, Error>)
    ensures r == SubBreedOl(subBreeds)
  {
    if EmptyGuardAsWritten(|subBreeds|) {
      return Failure(NoSubBreeds);
    }
    var items: seq<Node> := [];
    var i := 0;
    while i < |subBreeds|
      invariant 0 <= i <= |subBreeds|
      invariant |items| == i
      invariant forall k :: 0 <= k < i ==> items[k] == Li(subBreeds[k], None)
    {
      items := items + [Li(subBreeds[i], None)];
      i := i + 1;
    }
    assert items == ListItems(subBreeds);
    r := Success(Ol(items));
  }

  /** `generateAllBreedsOlElement`: one breed `li` per entry, with a `ul` of sub-breeds when there are any. */
  method GenerateAllBreedsOl(entries: seq<(string, seq<string>)>) returns (ol: Node)
    ensures ol == AllBreedsOl(entries)
  {
    var items: seq<Node> := [];
    var i := 0;
    while i < |entries|
      invariant 0 <= i <= |entries|
      invariant |items| == i
      invariant forall k :: 0 <= k < i ==> items[k] == BreedItem(entries[k].0, entries[k].1)
    {
      var (breed, subBreeds) := entries[i];
      var nested: Option<Node> := None;
      if |subBreeds| > 0 {
        var ulItems: seq<Node> := [];
        var j := 0;
        while j < |subBreeds|
          invariant 0 <= j <= |subBreeds|
          invariant |ulItems| == j
          invariant forall k :: 0 <= k < j ==> ulItems[k] == Li(subBreeds[k], None)
        {
          ulItems := ulItems + [Li(subBreeds[j], None)];
          j := j + 1;
        }
        assert ulItems == ListItems(subBreeds);
        nested := Some(Ul(ulItems));
      }
      items := items + [Li(breed, nested)];
      i := i + 1;
    }
    assert items == BreedItems(entries);
    ol := Ol(items);
  }

  /** The content container. */
  class Content {
    var children: seq<Node>

    constructor ()
      ensures children == []
    {
      children := [];
    }

    method AppendChild(child: Node)
      modifies this
      ensures children == old(children) + [child]
    {
      children := children + [child];
    }

    /** `clearContent`: removes the first child until there is none. */
    method Clear()
      modifies this
      ensures children == []
    {
      while children != []
        invariant children == old(children)[|old(children)| - |children|..]
        decreases |children|
      {
        children := children[1..];
      }
    }

    /**
     * `populateContentWithResult`: clears the container, then appends the
     * element the message calls for. When building it throws, the container is
     * left empty and the error propagates.
     */
    method PopulateWithResult(message: Payload) returns (thrown: Option<Error>)
      modifies this
      ensures RenderResult(message).Success? ==>
                thrown == None && children == [RenderResult(message).value]
      ensures RenderResult(message).Failure? ==>
                thrown == Some(RenderResult(message).error) && children == []
    {
      Clear();
      var child: Node;
      match message {
        case Text(s) =>
          if StartsWith(s, "http") {
            child := ImgElement(s);
          } else if s == [] {
            child := Ol([]);
          } else {
            return Some(NotIterable);
          }
        case List(names) =>
          var r := GenerateSubBreedOl(names);
          if r.Failure? {
            return Some(r.error);
          }
          child := r.value;
        case BreedMap(entries) =>
          child := GenerateAllBreedsOl(entries);
      }
      AppendChild(child);
      thrown := None;
    }

    /** `populateContentWithError`: clears the container and leaves one paragraph with the message. */
    method PopulateWithError(errorMessage: string := DefaultErrorMessage)
      modifies this
      ensures children == [P(errorMessage)]
    {
      Clear();
      AppendChild(P(errorMessage));
    }
  }
}
