/**
 * The hand-curated model catalog.  The same two lists are served by the
 * `/api/models` endpoint of both back ends and built into the front end's
 * model selector; nothing in them depends on configured credentials.
 */
module Catalog {

  /** One selectable model: the identifier sent to the provider and its display label. */
  datatype ModelOption = ModelOption(value: string, text: string)

  const OpenAIModels: seq<ModelOption> := [
    ModelOption("gpt-4o", "GPT-4o"),
    ModelOption("gpt-4o-mini", "GPT-4o Mini"),
    ModelOption("gpt-4-turbo", "GPT-4 Turbo"),
    ModelOption("gpt-4", "GPT-4"),
    ModelOption("gpt-3.5-turbo", "GPT-3.5 Turbo")
  ]

  const GoogleModels: seq<ModelOption> := [
    ModelOption("gemini-2.5-flash", "Gemini 2.5 Flash"),
    ModelOption("gemini-2.0-flash", "Gemini 2.0 Flash"),
    ModelOption("gemini-flash-latest", "Gemini Flash Latest"),
    ModelOption("gemini-pro-latest", "Gemini Pro Latest")
  ]

  /** The body of `GET /api/models`: provider id to its ordered list of models. */
  function Models(): (m: map<string, seq<ModelOption>>)
    ensures m.Keys == {"openai", "google"}
    ensures forall p :: p in m ==> |m[p]| > 0
  {
    map["openai" := OpenAIModels, "google" := GoogleModels]
  }

  /** The catalog of one provider, or no models at all for an unknown one. */
  function OptionsFor(provider: string): (r: seq<ModelOption>)
    ensures provider in Models() ==> r == Models()[provider]
    ensures provider !in Models() ==> r == []
  {
    if provider == "openai" then OpenAIModels
    else if provider == "google" then GoogleModels
    else []
  }

  function Values(options: seq<ModelOption>): (r: seq<string>)
    ensures |r| == |options|
    ensures forall k :: 0 <= k < |r| ==> r[k] == options[k].value
  {
    if options == [] then [] else [options[0].value] + Values(options[1..])
  }

  predicate Distinct(xs: seq<string>) {
    forall j, k :: 0 <= j < k < |xs| ==> xs[j] != xs[k]
  }

  /** No model identifier is listed twice, and the two catalogs share none. */
  lemma CatalogsAreWellFormed()
    ensures Distinct(Values(OpenAIModels)) && Distinct(Values(GoogleModels))
    ensures forall x :: x in Values(OpenAIModels) ==> x !in Values(GoogleModels)
    ensures "gpt-3.5-turbo" in Values(OpenAIModels)
  {
    var o := Values(OpenAIModels);
    var g := Values(GoogleModels);
    assert o == ["gpt-4o", "gpt-4o-mini", "gpt-4-turbo", "gpt-4", "gpt-3.5-turbo"];
    assert g == ["gemini-2.5-flash", "gemini-2.0-flash", "gemini-flash-latest", "gemini-pro-latest"];
  }
}
