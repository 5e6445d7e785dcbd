/** The home screen's mood selector: two ten-tick sliders that write happiness or energy through
    `updateMood`, a thumb offset per slider, and a first-match rule that picks one of six emoji from
    the current levels. */
module MoodSelector {
  import opened Common
  import opened MoodState

  datatype MoodIcon = Happy | Sad | Energetic | Relaxed | Angry | Anxious

  /** The `moodIcons` table: one code point per face. */
  function Emoji(icon: MoodIcon): (s: string)
    ensures |s| == 1
    ensures icon == Energetic <==> s[0] as int < 0x1_0000
  {
    match icon
    case Happy => "\U{1F604}"
    case Sad => "\U{1F614}"
    case Energetic => "\U{26A1}"
    case Relaxed => "\U{1F60C}"
    case Angry => "\U{1F620}"
    case Anxious => "\U{1F630}"
  }

  /** `currentMood?.happiness || 5`: a missing mood, and the falsy level 0, read as 5. */
  function HappinessLevel(current: Option<Mood>): (v: int)
    ensures v != 0
    ensures current.None? ==> v == 5
    ensures current.Some? && current.value.happiness != 0 ==> v == current.value.happiness
    ensures current.Some? && current.value.happiness == 0 ==> v == 5
  {
    if current.Some? && current.value.happiness != 0 then current.value.happiness else 5
  }

  /** `currentMood?.energy || 5`. */
  function EnergyLevel(current: Option<Mood>): (v: int)
    ensures v != 0
    ensures current.None? ==> v == 5
    ensures current.Some? && current.value.energy != 0 ==> v == current.value.energy
    ensures current.Some? && current.value.energy == 0 ==> v == 5
  {
    if current.Some? && current.value.energy != 0 then current.value.energy else 5
  }

  /** The first-match rule of `getMoodEmoji`, on the two levels; each icon is characterised by the
      exact region of the plane it covers, independent of the order of the checks. */
  function Classify(h: int, e: int): (r: MoodIcon)
    ensures r == Sad <==> h < 3 && e < 3
    ensures r == Angry <==> h < 3 && e > 7
    ensures r == Relaxed <==> h > 7 && e < 3
    ensures r == Energetic <==> 3 <= h <= 7 && e > 7
    ensures r == Anxious <==> (h == 3 && e <= 7) || (h < 3 && 3 <= e <= 7)
    ensures r == Happy <==> (h > 7 && e > 7) || (h >= 4 && e <= 7 && !(h > 7 && e < 3))
  {
    if h > 7 && e > 7 then Happy
    else if h < 3 && e < 3 then Sad
    else if h < 3 && e > 7 then Angry
    else if h > 7 && e < 3 then Relaxed
    else if e > 7 then Energetic
    else if h < 4 then Anxious
    else Happy
  }

  /** Different faces show different emoji, so the displayed emoji tells which rule fired. */
  lemma EmojiDistinct(a: MoodIcon, b: MoodIcon)
    ensures Emoji(a) == Emoji(b) <==> a == b
  {
  }

  /** `getMoodEmoji()`: the rule applied to the current levels, where only a missing mood or a level
      of 0 falls back to 5. */
  function GetMoodEmoji(current: Option<Mood>): (r: MoodIcon)
    ensures current.None? ==> r == Happy
    ensures current.Some? && current.value.happiness != 0 && current.value.energy != 0 ==>
              r == Classify(current.value.happiness, current.value.energy)
    ensures current.Some? && current.value.happiness == 0 ==> r == Classify(5, EnergyLevel(current))
    ensures current.Some? && current.value.energy == 0 ==> r == Classify(HappinessLevel(current), 5)
  {
    Classify(HappinessLevel(current), EnergyLevel(current))
  }

  /** Without a mood, and for a mood with both levels 0, the defaults (5, 5) show the happy face. */
  lemma DefaultsShowHappy(t: Option<Clock>)
    ensures GetMoodEmoji(None) == Happy
    ensures GetMoodEmoji(Some(Mood(0, 0, t))) == Happy
  {
  }

  /** The initial provider mood (7, 6) shows the happy face; top levels on both sliders do too. */
  lemma ProviderStartShowsHappy(t: Option<Clock>)
    ensures GetMoodEmoji(Some(Mood(7, 6, t))) == Happy
    ensures GetMoodEmoji(Some(Mood(10, 10, t))) == Happy
  {
  }

  /** `(value - 1) * 30`: the thumb's horizontal offset. */
  function ThumbOffset(v: int): (x: int)
    ensures x % 30 == 0
    ensures x / 30 + 1 == v
  {
    (v - 1) * 30
  }

  /** The ticks 1 to 10 place the thumb at 0, 30, ..., 270, strictly left to right. */
  lemma ThumbOffsetsOfTicks(v: int, w: int)
    requires 1 <= v < w <= 10
    ensures 0 <= ThumbOffset(v) < ThumbOffset(w) <= 270
    ensures ThumbOffset(1) == 0 && ThumbOffset(10) == 270
  {
  }

  /** The selector's two animated values and the provider they write to. */
  class MoodSelectorView {
    const provider: MoodProvider
    var happinessValue: int
    var energyValue: int

    /** `useSharedValue(currentMood?.happiness || 5)` and the same for energy. */
    constructor (provider: MoodProvider)
      ensures this.provider == provider
      ensures happinessValue == HappinessLevel(Some(provider.currentMood))
      ensures energyValue == EnergyLevel(Some(provider.currentMood))
    {
      this.provider := provider;
      happinessValue := HappinessLevel(Some(provider.currentMood));
      energyValue := EnergyLevel(Some(provider.currentMood));
    }

    /** `updateHappiness(value)`: only happiness changes; the energy of the current mood is kept. */
    method UpdateHappiness(value: int, now: Clock)
      requires provider.Valid()
      modifies this, provider
      ensures provider.Valid()
      ensures happinessValue == value && energyValue == old(energyValue)
      ensures provider.currentMood == Mood(value, old(provider.currentMood.energy), Some(now))
      ensures provider.moodHistory == PushHistory(old(provider.moodHistory), provider.currentMood)
    {
      happinessValue := value;
      provider.UpdateMood(provider.currentMood.(happiness := value), now);
    }

    /** `updateEnergy(value)`: only energy changes; the happiness of the current mood is kept. */
    method UpdateEnergy(value: int, now: Clock)
      requires provider.Valid()
      modifies this, provider
      ensures provider.Valid()
      ensures energyValue == value && happinessValue == old(happinessValue)
      ensures provider.currentMood == Mood(old(provider.currentMood.happiness), value, Some(now))
      ensures provider.moodHistory == PushHistory(old(provider.moodHistory), provider.currentMood)
    {
      energyValue := value;
      provider.UpdateMood(provider.currentMood.(energy := value), now);
    }
  }
}
