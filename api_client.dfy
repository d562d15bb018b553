// The API client (agent/data_collectors/api_client.py): the Crunchbase and
// company-data fetches, which return nothing yet, and the enrichment that
// adds guessed social-media links to a startup's dictionary in place.

module ApiClient {
  import opened Values
  import DataParser

  type Record = map<string, Json>

  const SocialMediaField := "social_media"
  const TwitterField := "twitter"
  const LinkedinField := "linkedin"
  const TwitterPrefix := "https://twitter.com/"
  const LinkedinPrefix := "https://linkedin.com/company/"

  /** `s.replace(c, d)` for single characters. */
  function ReplaceChar(s: string, c: char, d: char): (r: string)
    ensures |r| == |s|
    ensures forall i :: 0 <= i < |s| ==> r[i] == if s[i] == c then d else s[i]
  {
    if |s| == 0 then "" else [if s[0] == c then d else s[0]] + ReplaceChar(s[1..], c, d)
  }

  /** The Twitter handle guessed from a name: lower case, spaces dropped. */
  function TwitterHandle(name: string): string {
    RemoveChar(Lower(name), ' ')
  }

  /** The LinkedIn handle guessed from a name: lower case, spaces made hyphens. */
  function LinkedinHandle(name: string): string {
    ReplaceChar(Lower(name), ' ', '-')
  }

  function SocialMedia(name: string): Json {
    Obj(map[TwitterField := Str(TwitterPrefix + TwitterHandle(name)),
            LinkedinField := Str(LinkedinPrefix + LinkedinHandle(name))])
  }

  /** `startup.get('name', '')` as far as `.lower()` accepts it: None when
    * the name is there but is not a text. */
  function NameOf(startup: Record): Option<string> {
    if DataParser.NameField !in startup then Some("")
    else match startup[DataParser.NameField]
      case Str(s) => Some(s)
      case _ => None
  }

  /** The dictionary after `enrich_startup_data`, or None when building the
    * links raises (a name that is not a text). A dictionary that already has
    * social media is returned as it is, whatever its name. */
  function Enrich(startup: Record): Option<Record> {
    if SocialMediaField in startup then Some(startup)
    else match NameOf(startup)
      case None => None
      case Some(name) => Some(startup[SocialMediaField := SocialMedia(name)])
  }

  /** A startup dictionary the caller owns and the client updates in place. */
  class Startup {
    var fields: Record

    constructor (fields: Record)
      ensures this.fields == fields
    {
      this.fields := fields;
    }
  }

  class APIClient {
    /** The configured Crunchbase key; the empty text when none is set. */
    const crunchbaseApiKey: string

    constructor (crunchbaseApiKey: string)
      ensures this.crunchbaseApiKey == crunchbaseApiKey
    {
      this.crunchbaseApiKey := crunchbaseApiKey;
    }

    /** No Crunchbase records are fetched, whether a key is configured or not. */
    method FetchCrunchbaseData(category: string, maxResults: int) returns (r: seq<Record>)
      ensures r == []
    {
      if |crunchbaseApiKey| == 0 {
        return [];
      }
      return [];
    }

    /** No additional data is found for any company. */
    method FetchAdditionalCompanyData(companyName: string) returns (r: Option<Record>)
      ensures r == None
    {
      return None;
    }

    /** Adds the social-media links to `startup` when it has none and hands
      * back the same object; None, with the object unchanged, when the name
      * is not a text. */
    method EnrichStartupData(startup: Startup) returns (r: Option<Startup>)
      modifies startup
      ensures Enrich(old(startup.fields)).Some? ==> r == Some(startup) && startup.fields == Enrich(old(startup.fields)).value
      ensures Enrich(old(startup.fields)).None? ==> r == None && startup.fields == old(startup.fields)
    {
      if SocialMediaField !in startup.fields {
        var name := NameOf(startup.fields);
        if name.None? {
          return None;
        }
        startup.fields := startup.fields[SocialMediaField := SocialMedia(name.value)];
      }
      return Some(startup);
    }
  }

  /** Enrichment fails exactly when the links have to be built and the name
    * is present but not a text. */
  lemma EnrichFails(startup: Record)
    ensures Enrich(startup).None? <==>
      SocialMediaField !in startup && DataParser.NameField in startup && !startup[DataParser.NameField].Str?
  {
  }

  /** Enrichment only ever adds the social-media key: every other entry,
    * and an existing social-media value, stay as they were. */
  lemma EnrichKeepsEntries(startup: Record)
    requires Enrich(startup).Some?
    ensures Enrich(startup).value.Keys == startup.Keys + {SocialMediaField}
    ensures forall k :: k in startup && k != SocialMediaField ==> Enrich(startup).value[k] == startup[k]
    ensures SocialMediaField in startup ==> Enrich(startup).value == startup
  {
  }

  /** The links added for a text name. */
  lemma EnrichLinks(startup: Record, name: string)
    requires SocialMediaField !in startup && NameOf(startup) == Some(name)
    ensures Enrich(startup).Some?
    ensures Enrich(startup).value[SocialMediaField] == SocialMedia(name)
    ensures DataParser.NameField !in startup ==> SocialMedia(name) == SocialMedia("")
  {
  }

  /** A second enrichment changes nothing. */
  lemma EnrichIdempotent(startup: Record)
    requires Enrich(startup).Some?
    ensures Enrich(Enrich(startup).value) == Enrich(startup)
  {
  }

  lemma {:induction false} RemoveReplaced(s: string, c: char, d: char)
    ensures RemoveChar(ReplaceChar(s, c, d), d) == RemoveChar(RemoveChar(s, c), d)
  {
    if |s| > 0 {
      RemoveReplaced(s[1..], c, d);
      assert ReplaceChar(s, c, d)[1..] == ReplaceChar(s[1..], c, d);
    }
  }

  /** Both handles are in lower case and free of spaces; the LinkedIn handle
    * keeps the name's length, and with hyphens ignored the two handles are
    * the same text. */
  lemma HandlesAgree(name: string)
    ensures forall i :: 0 <= i < |TwitterHandle(name)| ==> TwitterHandle(name)[i] != ' ' && !IsUpperLetter(TwitterHandle(name)[i])
    ensures forall i :: 0 <= i < |LinkedinHandle(name)| ==> LinkedinHandle(name)[i] != ' ' && !IsUpperLetter(LinkedinHandle(name)[i])
    ensures |LinkedinHandle(name)| == |name|
    ensures RemoveChar(LinkedinHandle(name), '-') == RemoveChar(TwitterHandle(name), '-')
  {
    RemoveReplaced(Lower(name), ' ', '-');
    NoUpperAfterRemove(Lower(name), ' ');
  }

  lemma {:induction false} NoUpperAfterRemove(s: string, c: char)
    requires forall i :: 0 <= i < |s| ==> !IsUpperLetter(s[i])
    ensures forall i :: 0 <= i < |RemoveChar(s, c)| ==> !IsUpperLetter(RemoveChar(s, c)[i])
  {
    if |s| > 0 {
      NoUpperAfterRemove(s[1..], c);
    }
  }
}
