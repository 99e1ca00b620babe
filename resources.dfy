/** The learning-resource panel (src/components/learning/ResourceRecommender.jsx):
    the per-topic cache in local storage, generating a bundle through the
    language model, and the scheme normalisation of simulation and reading
    links. */
module Resources {
  import opened Text
  import opened Records
  import opened Gateway

  const Http := "http://"
  const Https := "https://"

  /** `url.startsWith('http://') || url.startsWith('https://')`. */
  predicate HasScheme(url: string)
  {
    StartsWith(url, Http) || StartsWith(url, Https)
  }

  /** `let url = x.url || ''`, then "https://" is put in front of a non-empty
      URL that has neither scheme. An empty result means the entry is skipped. */
  function NormaliseUrl(raw: Option<string>): (url: string)
    ensures url == "" <==> raw.None? || raw.value == ""
    ensures url != "" ==> HasScheme(url)
    ensures raw.Some? && HasScheme(raw.value) ==> url == raw.value
    ensures raw.Some? && raw.value != "" && !HasScheme(raw.value) ==> url == Https + raw.value
  {
    var u := if raw.Some? then raw.value else "";
    if u != "" && !HasScheme(u) then
      assert StartsWith(Https + u, Https) by {
        assert (Https + u)[..|Https|] == Https;
      }
      Https + u
    else u
  }

  /** Normalising a normalised URL changes nothing. */
  lemma NormaliseIdempotent(raw: Option<string>)
    ensures NormaliseUrl(Some(NormaliseUrl(raw))) == NormaliseUrl(raw)
  {
  }

  /** The original text survives at the end of the normalised URL. */
  lemma NormaliseKeepsAddress(raw: Option<string>)
    requires raw.Some?
    ensures var url := NormaliseUrl(raw);
      |raw.value| <= |url| && url[|url| - |raw.value|..] == raw.value
  {
    var url := NormaliseUrl(raw);
    if url != raw.value {
      assert url == Https + raw.value;
      assert url[|Https|..] == raw.value;
    }
  }

  /** A rendered link: where a click opens, and the URL text shown under the
      title (simulations show the raw `url`; readings show none). */
  datatype Link = Link(title: string, target: string, shown: Option<string>)

  /** `resources.simulations.map(...)`, where an entry whose URL is empty or
      missing renders nothing. */
  function SimulationLinks(sims: seq<Simulation>): (links: seq<Link>)
    ensures |links| <= |sims|
    ensures forall i :: 0 <= i < |links| ==> HasScheme(links[i].target)
  {
    if sims == [] then []
    else
      var s := sims[0];
      var url := NormaliseUrl(s.url);
      (if url == "" then [] else [Link(s.title, url, Some(if s.url.Some? then s.url.value else ""))])
        + SimulationLinks(sims[1..])
  }

  /** `resources.readings.map(...)`, skipping entries without a URL. */
  function ReadingLinks(readings: seq<Reading>): (links: seq<Link>)
    ensures |links| <= |readings|
    ensures forall i :: 0 <= i < |links| ==> HasScheme(links[i].target) && links[i].shown.None?
  {
    if readings == [] then []
    else
      var r := readings[0];
      var url := NormaliseUrl(r.url);
      (if url == "" then [] else [Link(r.title, url, None)]) + ReadingLinks(readings[1..])
  }

  /** When every simulation has a URL, each is rendered, in order, opening
      its normalised URL and showing the raw one. */
  lemma {:induction false} SimulationLinksAll(sims: seq<Simulation>)
    requires forall i :: 0 <= i < |sims| ==> sims[i].url.Some? && sims[i].url.value != ""
    ensures |SimulationLinks(sims)| == |sims|
    ensures forall i :: 0 <= i < |sims| ==>
      SimulationLinks(sims)[i] == Link(sims[i].title, NormaliseUrl(sims[i].url), sims[i].url)
  {
    if sims != [] {
      assert forall i :: 1 <= i < |sims| ==> sims[1..][i - 1] == sims[i];
      SimulationLinksAll(sims[1..]);
    }
  }

  /** When no simulation has a URL, nothing is rendered. */
  lemma {:induction false} SimulationLinksNone(sims: seq<Simulation>)
    requires forall i :: 0 <= i < |sims| ==> sims[i].url.None? || sims[i].url.value == ""
    ensures SimulationLinks(sims) == []
  {
    if sims != [] {
      assert forall i :: 1 <= i < |sims| ==> sims[1..][i - 1] == sims[i];
      SimulationLinksNone(sims[1..]);
    }
  }

  /** Readings follow the same rule: with a URL each is rendered, in order. */
  lemma {:induction false} ReadingLinksAll(readings: seq<Reading>)
    requires forall i :: 0 <= i < |readings| ==> readings[i].url.Some? && readings[i].url.value != ""
    ensures |ReadingLinks(readings)| == |readings|
    ensures forall i :: 0 <= i < |readings| ==>
      ReadingLinks(readings)[i] == Link(readings[i].title, NormaliseUrl(readings[i].url), None)
  {
    if readings != [] {
      assert forall i :: 1 <= i < |readings| ==> readings[1..][i - 1] == readings[i];
      ReadingLinksAll(readings[1..]);
    }
  }

  /** The local-storage key of a topic's bundle. */
  function CacheKey(topic: string): (key: string)
    ensures StartsWith(key, "resources_")
  {
    "resources_" + topic
  }

  /** Different topics have different keys. */
  lemma CacheKeyInjective(t: string, t': string)
    requires CacheKey(t) == CacheKey(t')
    ensures t == t'
  {
    assert t == CacheKey(t)[|"resources_"|..];
    assert t' == CacheKey(t')[|"resources_"|..];
  }

  /** What the mount effect leaves in `resources`: the stored bundle when the
      key holds one; otherwise (no entry, an empty string, text that does not
      parse) the current value. */
  function Loaded(entries: map<string, Stored>, topic: string, current: Option<ResourceBundle>): Option<ResourceBundle>
  {
    var key := CacheKey(topic);
    if key in entries && entries[key].BundleJson? then Some(entries[key].bundle) else current
  }

  /** A bundle written for a topic is read back for that topic, a later write
      replaces it, and other topics read what they did before. */
  lemma CacheRoundTrip(entries: map<string, Stored>, topic: string, b: ResourceBundle, b': ResourceBundle,
                       other: string, current: Option<ResourceBundle>)
    requires other != topic
    ensures Loaded(entries[CacheKey(topic) := BundleJson(b)], topic, current) == Some(b)
    ensures Loaded(entries[CacheKey(topic) := BundleJson(b)][CacheKey(topic) := BundleJson(b')], topic, current) == Some(b')
    ensures Loaded(entries[CacheKey(topic) := BundleJson(b)], other, current) == Loaded(entries, other, current)
  {
    if CacheKey(other) == CacheKey(topic) {
      CacheKeyInjective(other, topic);
    }
  }

  class ResourceRecommender {
    const topic: string
    var resources: Option<ResourceBundle>
    var isLoading: bool

    constructor (topic: string)
      ensures this.topic == topic && resources == None && !isLoading
    {
      this.topic := topic;
      resources := None;
      isLoading := false;
    }

    /** The mount effect: restore the topic's cached bundle, if any. */
    method Load(storage: LocalStorage)
      modifies this`resources
      ensures resources == Loaded(storage.entries, topic, old(resources))
    {
      var key := CacheKey(topic);
      if key in storage.entries && storage.entries[key].BundleJson? {
        resources := Some(storage.entries[key].bundle);
      }
    }

    /** `generateResources()`: a bundle from the model replaces the shown
        one and overwrites the cache entry (a refused write is caught, and
        the bundle is still shown); a failed call changes nothing. The
        spinner is off afterwards either way. */
    method GenerateResources(reply: Call<ResourceBundle>, storage: LocalStorage, writeAccepted: bool)
      modifies this`resources, this`isLoading, storage
      ensures !isLoading
      ensures reply.Done? ==> resources == Some(reply.value)
      ensures reply.Done? && writeAccepted ==>
        storage.entries == old(storage.entries)[CacheKey(topic) := BundleJson(reply.value)]
      ensures reply.Done? && !writeAccepted ==> storage.entries == old(storage.entries)
      ensures reply.Failed? ==> resources == old(resources) && storage.entries == old(storage.entries)
    {
      isLoading := true;
      if reply.Done? {
        resources := Some(reply.value);
        var _ := storage.SetItem(CacheKey(topic), BundleJson(reply.value), writeAccepted);
      }
      isLoading := false;
    }
  }
}
