/** The sport catalog of the current back end: each supported sport's analysis
    prompt and reference video, in insertion order. Prompts are opaque to the
    handlers; the texts here summarise, in a few words, what each one asks of
    the inference model. Reference videos are file names in the back end's
    base directory. */
module Catalog {
  import opened Wrappers

  /** A Python dict literal: (key, value) pairs in insertion order. */
  type Dict<V> = seq<(string, V)>

  function Keys<V>(d: Dict<V>): (keys: seq<string>)
    ensures |keys| == |d|
    ensures forall i :: 0 <= i < |d| ==> keys[i] == d[i].0
    decreases |d|
  {
    if |d| == 0 then [] else Keys(d[..|d| - 1]) + [d[|d| - 1].0]
  }

  /** `d.get(key)` and `key in d`: the value stored under `key`. Every dict
      here has distinct keys, so searching from the front finds the one entry. */
  function Lookup<V>(d: Dict<V>, key: string): (r: Option<V>)
    ensures r.Some? <==> key in Keys(d)
    ensures r.Some? ==> (key, r.value) in d
    decreases |d|
  {
    if |d| == 0 then None
    else if d[0].0 == key then Some(d[0].1)
    else
      assert Keys(d) == [d[0].0] + Keys(d[1..]);
      Lookup(d[1..], key)
  }

  const BasketballPrompt := "compare the shooting form with Stephen Curry's; give a similarity score (percentage); reject a video without a basketball shot"
  const SoccerPrompt := "compare the shooting or passing technique with a professional's; give a similarity score (percentage); reject a video without a soccer shot or pass"
  const BoxingPrompt := "compare the boxing technique with a professional boxer's; give a similarity score (percentage); reject a video without a boxing action"
  const GolfPrompt := "compare the golf swing with a professional golfer's; give a similarity score (percentage); reject a video without a golf swing"

  const SportPrompts: Dict<string> := [
    ("basketball", BasketballPrompt),
    ("soccer", SoccerPrompt),
    ("boxing", BoxingPrompt),
    ("golf", GolfPrompt)
  ]

  const SportVideos: Dict<string> := [
    ("basketball", "stephShot.mp4"),
    ("soccer", "ronaldoKick.mp4"),
    ("boxing", "tysonUppercut.mp4"),
    ("golf", "tigerSwing.mp4")
  ]

  /** The two dicts have the same keys in the same order: basketball, soccer, boxing, golf. */
  lemma CatalogsAgree()
    ensures Keys(SportPrompts) == Keys(SportVideos) == ["basketball", "soccer", "boxing", "golf"]
  {
  }

  /** `SPORT_PROMPTS[sport]`, for a sport the handler has admitted. */
  function PromptOf(sport: string): string
    requires sport in Keys(SportPrompts)
  {
    Lookup(SportPrompts, sport).value
  }

  /** `SPORT_VIDEOS[sport]` after the membership test on `SPORT_PROMPTS`: it never misses. */
  function ReferenceVideo(sport: string): (path: string)
    requires sport in Keys(SportPrompts)
    ensures (sport, path) in SportVideos
  {
    CatalogsAgree();
    Lookup(SportVideos, sport).value
  }

  /** `GET /api/sports`: the prompt dict's keys, in insertion order. Every
      listed sport has a non-empty prompt and a reference video. */
  function GetSports(): (sports: seq<string>)
    ensures forall sport :: sport in sports ==>
      Lookup(SportPrompts, sport).Some? && |Lookup(SportPrompts, sport).value| > 0 && Lookup(SportVideos, sport).Some?
  {
    CatalogsAgree();
    Keys(SportPrompts)
  }

  /** The listing is the four sports in insertion order. */
  lemma GetSportsOrder()
    ensures GetSports() == ["basketball", "soccer", "boxing", "golf"]
  {
    CatalogsAgree();
  }
}
