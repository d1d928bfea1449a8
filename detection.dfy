/**
 Platform detection (`detectPlatform`): an ordered chain of substring tests
 that maps a URL to one of eleven platform identifiers, or to nothing.
 */
module Detection {
  import opened Types
  import opened JsText

  datatype Platform =
    | Instagram | Facebook | TikTok | X | YouTube | Spotify
    | Pinterest | MediaFire | CapCut | SoundCloud | Threads

  /** The identifier `detectPlatform` returns for each platform. */
  function Id(p: Platform): string {
    match p
    case Instagram => "instagram"
    case Facebook => "facebook"
    case TikTok => "tiktok"
    case X => "x"
    case YouTube => "youtube"
    case Spotify => "spotify"
    case Pinterest => "pinterest"
    case MediaFire => "mediafire"
    case CapCut => "capcut"
    case SoundCloud => "soundcloud"
    case Threads => "threads"
  }

  /** One detection rule: the platform and the domain fragments that select it. */
  datatype Rule = Rule(platform: Platform, fragments: seq<string>)

  /** The rules in the order they are tried. */
  const Rules: seq<Rule> := [
    Rule(Instagram, ["instagram.com"]),
    Rule(Facebook, ["facebook.com", "fb.watch"]),
    Rule(TikTok, ["tiktok.com"]),
    Rule(X, ["twitter.com", "x.com"]),
    Rule(YouTube, ["youtube.com", "youtu.be"]),
    Rule(Spotify, ["spotify.com"]),
    Rule(Pinterest, ["pinterest.com", "pin.it"]),
    Rule(MediaFire, ["mediafire.com"]),
    Rule(CapCut, ["capcut.com"]),
    Rule(SoundCloud, ["soundcloud.com"]),
    Rule(Threads, ["threads.net"])
  ]

  /** The URL contains one of the fragments. */
  predicate MatchesAny(url: string, fragments: seq<string>) {
    exists k :: 0 <= k < |fragments| && Includes(url, fragments[k])
  }

  /** Reference reading of a rule table: the platform of the first rule, from
      index `i` on, one of whose fragments the URL contains. */
  function FirstMatch(url: string, rules: seq<Rule>, i: nat): Option<Platform>
    decreases |rules| - i
  {
    if i >= |rules| then None
    else if MatchesAny(url, rules[i].fragments) then Some(rules[i].platform)
    else FirstMatch(url, rules, i + 1)
  }

  /** The entries of `Rules`, one by one. */
  lemma RulesInOrder()
    ensures |Rules| == 11
    ensures Rules[0] == Rule(Instagram, ["instagram.com"]) && Rules[1] == Rule(Facebook, ["facebook.com", "fb.watch"])
    ensures Rules[2] == Rule(TikTok, ["tiktok.com"]) && Rules[3] == Rule(X, ["twitter.com", "x.com"])
    ensures Rules[4] == Rule(YouTube, ["youtube.com", "youtu.be"]) && Rules[5] == Rule(Spotify, ["spotify.com"])
    ensures Rules[6] == Rule(Pinterest, ["pinterest.com", "pin.it"]) && Rules[7] == Rule(MediaFire, ["mediafire.com"])
    ensures Rules[8] == Rule(CapCut, ["capcut.com"]) && Rules[9] == Rule(SoundCloud, ["soundcloud.com"])
    ensures Rules[10] == Rule(Threads, ["threads.net"])
  {
  }

  lemma MatchesOne(url: string, a: string)
    ensures MatchesAny(url, [a]) <==> Includes(url, a)
  {
    if Includes(url, a) {
      assert [a][0] == a;
    }
  }

  lemma MatchesTwo(url: string, a: string, b: string)
    ensures MatchesAny(url, [a, b]) <==> Includes(url, a) || Includes(url, b)
  {
    if Includes(url, a) {
      assert [a, b][0] == a;
    }
    if Includes(url, b) {
      assert [a, b][1] == b;
    }
  }

  /** `detectPlatform(url)`, written as the source's chain of tests. It picks
      the first rule of `Rules` that the URL matches. */
  function DetectPlatform(url: string): (r: Option<Platform>)
    ensures r == FirstMatch(url, Rules, 0)
  {
    RulesInOrder();
    MatchesOne(url, "instagram.com");
    MatchesTwo(url, "facebook.com", "fb.watch");
    MatchesOne(url, "tiktok.com");
    MatchesTwo(url, "twitter.com", "x.com");
    MatchesTwo(url, "youtube.com", "youtu.be");
    MatchesOne(url, "spotify.com");
    MatchesTwo(url, "pinterest.com", "pin.it");
    MatchesOne(url, "mediafire.com");
    MatchesOne(url, "capcut.com");
    MatchesOne(url, "soundcloud.com");
    MatchesOne(url, "threads.net");
    if Includes(url, "instagram.com") then Some(Instagram)
    else if Includes(url, "facebook.com") || Includes(url, "fb.watch") then Some(Facebook)
    else if Includes(url, "tiktok.com") then Some(TikTok)
    else if Includes(url, "twitter.com") || Includes(url, "x.com") then Some(X)
    else if Includes(url, "youtube.com") || Includes(url, "youtu.be") then Some(YouTube)
    else if Includes(url, "spotify.com") then Some(Spotify)
    else if Includes(url, "pinterest.com") || Includes(url, "pin.it") then Some(Pinterest)
    else if Includes(url, "mediafire.com") then Some(MediaFire)
    else if Includes(url, "capcut.com") then Some(CapCut)
    else if Includes(url, "soundcloud.com") then Some(SoundCloud)
    else if Includes(url, "threads.net") then Some(Threads)
    else None
  }

  /** What "first match" means: the chosen rule matches and no earlier one
      does; nothing is chosen exactly when no rule matches. */
  lemma {:induction false} FirstMatchSpec(url: string, rules: seq<Rule>, i: nat)
    ensures FirstMatch(url, rules, i).None? <==>
              forall k :: i <= k < |rules| ==> !MatchesAny(url, rules[k].fragments)
    ensures FirstMatch(url, rules, i).Some? ==>
              exists k :: i <= k < |rules| && rules[k].platform == FirstMatch(url, rules, i).value
                && MatchesAny(url, rules[k].fragments)
                && forall j :: i <= j < k ==> !MatchesAny(url, rules[j].fragments)
    decreases |rules| - i
  {
    if i < |rules| {
      FirstMatchSpec(url, rules, i + 1);
      if MatchesAny(url, rules[i].fragments) {
        assert rules[i].platform == FirstMatch(url, rules, i).value;
      }
    }
  }

  /** `detectPlatform` answers null exactly when the URL contains none of the
      fragments of any rule. */
  lemma DetectNoneIff(url: string)
    ensures DetectPlatform(url).None? <==>
              forall k, j :: 0 <= k < |Rules| && 0 <= j < |Rules[k].fragments| ==>
                !Includes(url, Rules[k].fragments[j])
  {
    FirstMatchSpec(url, Rules, 0);
  }

  /** `detectPlatform` names the platform of a rule the URL matches, and no
      earlier rule matches. */
  lemma DetectSomeIsFirst(url: string)
    requires DetectPlatform(url).Some?
    ensures exists k :: 0 <= k < |Rules| && Rules[k].platform == DetectPlatform(url).value
              && MatchesAny(url, Rules[k].fragments)
              && forall j :: 0 <= j < k ==> !MatchesAny(url, Rules[j].fragments)
  {
    FirstMatchSpec(url, Rules, 0);
  }

  /** Matching is on plain substrings, not on host names: a Dropbox link
      contains "x.com" and is taken for an X link. */
  lemma DropboxIsTakenForX(url: string)
    requires url == "dropbox.com"
    ensures DetectPlatform(url) == Some(X)
  {
    NotIncludesMissingChar(url, "instagram.com");
    NotIncludesMissingChar(url, "facebook.com");
    NotIncludesMissingChar(url, "fb.watch");
    NotIncludesMissingChar(url, "tiktok.com");
    NotIncludesMissingChar(url, "twitter.com");
    IncludesIffOccurs(url, "x.com");
    assert OccursAt(url, "x.com", 6);
  }
}
