/** The channel-to-path switch shared by both scan views and both start views. */
module Channels {
  import opened Settings

  /** The channels with a path of their own; every other channel string reads the live path. */
  const Listed: set<string> := {Ptu, Eptu, Hotfix, TechPreview, Custom}

  /** The log file path of `channel` under the settings `c`. */
  function PathFor(channel: string, c: Config): (r: string)
    ensures channel !in Listed ==> r == c.pathLive
    ensures r in [c.pathLive, c.pathPtu, c.pathEptu, c.pathHotfix, c.pathTechPreview, c.pathCustom]
  {
    if channel == Ptu then c.pathPtu
    else if channel == Eptu then c.pathEptu
    else if channel == Hotfix then c.pathHotfix
    else if channel == TechPreview then c.pathTechPreview
    else if channel == Custom then c.pathCustom
    else c.pathLive
  }

  /** Every channel reads its own path: setting that path is what the channel then selects. */
  lemma OwnPathSelected(c: Config, v: string)
    ensures PathFor(Live, c.(pathLive := v)) == v
    ensures PathFor(Ptu, c.(pathPtu := v)) == v
    ensures PathFor(Eptu, c.(pathEptu := v)) == v
    ensures PathFor(Hotfix, c.(pathHotfix := v)) == v
    ensures PathFor(TechPreview, c.(pathTechPreview := v)) == v
    ensures PathFor(Custom, c.(pathCustom := v)) == v
  {
  }

  /** The match is exact: other spellings, and the empty channel, fall back to the live path. */
  lemma ExactSpellingOnly(c: Config)
    ensures PathFor("custom", c) == c.pathLive
    ensures PathFor("TECH_PREVIEW", c) == c.pathLive
    ensures PathFor("", c) == c.pathLive
  {
  }

  /** Only the selected channel's own path matters: the handle, the interval and the other paths do not. */
  lemma PathForReadsOnlyItsField(channel: string, c: Config, d: Config)
    requires channel == Ptu ==> c.pathPtu == d.pathPtu
    requires channel == Eptu ==> c.pathEptu == d.pathEptu
    requires channel == Hotfix ==> c.pathHotfix == d.pathHotfix
    requires channel == TechPreview ==> c.pathTechPreview == d.pathTechPreview
    requires channel == Custom ==> c.pathCustom == d.pathCustom
    requires channel !in Listed ==> c.pathLive == d.pathLive
    ensures PathFor(channel, c) == PathFor(channel, d)
  {
  }
}
