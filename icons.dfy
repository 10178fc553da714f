/** Which of six pictures the page shows for a provider condition code. */
module Icons {
  import opened Wrappers

  /** The six pictures, named after the icons the page draws. */
  datatype Icon = CloudLightning | CloudRain | CloudSnow | CloudFog | Sun | Cloud

  /** The if-chain from condition code to picture. */
  function WeatherIcon(weatherId: int): (icon: Icon)
    ensures icon != Cloud ==> InBand(weatherId, icon)
  {
    if 200 <= weatherId < 300 then CloudLightning
    else if 300 <= weatherId < 600 then CloudRain
    else if 600 <= weatherId < 700 then CloudSnow
    else if 700 <= weatherId < 800 then CloudFog
    else if weatherId == 800 then Sun
    else Cloud
  }

  /**
   * The half-open band of codes each picture stands for, as the provider groups them:
   * thunderstorm, drizzle and rain, snow, atmosphere, clear sky. `Cloud` has no band of
   * its own: it is whatever no other band covers.
   */
  function Band(icon: Icon): Option<(int, int)> {
    match icon
    case CloudLightning => Some((200, 300))
    case CloudRain => Some((300, 600))
    case CloudSnow => Some((600, 700))
    case CloudFog => Some((700, 800))
    case Sun => Some((800, 801))
    case Cloud => None
  }

  /** `weatherId` lies in the band of `icon`. */
  predicate InBand(weatherId: int, icon: Icon) {
    Band(icon).Some? && Band(icon).value.0 <= weatherId < Band(icon).value.1
  }

  /** No code lies in two bands. */
  lemma BandsDisjoint(weatherId: int, a: Icon, b: Icon)
    requires InBand(weatherId, a) && InBand(weatherId, b)
    ensures a == b
  {
  }

  /** Every code gets exactly one picture: the one whose band holds it, or `Cloud` when none does. */
  lemma WeatherIconMatchesBands(weatherId: int, icon: Icon)
    ensures WeatherIcon(weatherId) == icon <==>
      (if icon == Cloud then forall other :: !InBand(weatherId, other) else InBand(weatherId, icon))
  {
    if icon == Cloud && WeatherIcon(weatherId) != Cloud {
      assert InBand(weatherId, WeatherIcon(weatherId));
    }
  }
}
