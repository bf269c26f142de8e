/**
 * The two tools of the tourism agent whose answers are fixed tables rather
 * than queries of the knowledge base: the best season for a travel style and
 * the altitude-sickness advisory.
 */
module TravelAdvice {
  import opened Wrappers
  import opened Text
  import opened Seqs

  // ---------------------------------------------------------------------
  // get_best_season
  // ---------------------------------------------------------------------

  datatype SeasonAdvice = SeasonAdvice(bestMonths: seq<string>, reason: string, considerations: string)

  datatype SeasonAnswer = Season(advice: SeasonAdvice) | UnknownStyle(message: string)

  /** The fixed recommendation table of `get_best_season`, keyed by travel style. */
  const SeasonRecommendations: seq<(string, SeasonAdvice)> := [
    ("trekking", SeasonAdvice(
      ["mayo", "junio", "julio", "agosto"],
      "Cielo claro y poco riesgo de lluvia",
      "Frío intenso, especialmente por las noches")),
    ("casual", SeasonAdvice(
      ["mayo", "junio", "julio", "agosto", "septiembre"],
      "Clima estable y buena visibilidad",
      "Evitar noviembre a marzo por lluvia")),
    ("photography", SeasonAdvice(
      ["mayo", "junio", "julio", "agosto"],
      "Máxima claridad atmosférica y cielo azul",
      "Temperaturas bajas, llevar protección")),
    ("cultural", SeasonAdvice(
      ["todo el año"],
      "Las festividades ocurren durante el año",
      "Verificar fechas de festivales locales"))
  ]

  /** `get_best_season`: the entry for the lowered style, or a message for any other style. */
  function GetBestSeason(travelStyle: string): (r: SeasonAnswer)
    ensures r.Season? <==> Lower(travelStyle) in {"trekking", "casual", "photography", "cultural"}
    ensures r.Season? ==> (Lower(travelStyle), r.advice) in SeasonRecommendations
    ensures r.UnknownStyle? ==> r.message == "Estilo de viaje no reconocido: " + travelStyle
  {
    assert Keys(SeasonRecommendations) == ["trekking", "casual", "photography", "cultural"];
    match Lookup(SeasonRecommendations, Lower(travelStyle))
    case Some(advice) => Season(advice)
    case None => UnknownStyle("Estilo de viaje no reconocido: " + travelStyle)
  }

  /** The style is matched without regard to case: "TREKKING" gets the "trekking" entry. */
  lemma BestSeasonIgnoresCase(travelStyle: string)
    ensures GetBestSeason(travelStyle).Season? ==> GetBestSeason(travelStyle) == GetBestSeason(Lower(travelStyle))
    ensures GetBestSeason(travelStyle).Season? == GetBestSeason(Lower(travelStyle)).Season?
  {
    LowerIdempotent(travelStyle);
  }

  // ---------------------------------------------------------------------
  // get_altitude_advice
  // ---------------------------------------------------------------------

  datatype AltitudeAdvice = AltitudeAdvice(
    symptoms: seq<string>,
    prevention: seq<string>,
    treatment: seq<string>,
    whenToSeekHelp: seq<string>)

  /** `get_altitude_advice`: the same four-section advisory on every call. */
  function GetAltitudeAdvice(): (r: AltitudeAdvice)
    ensures |r.symptoms| == 4 && |r.prevention| == 5 && |r.treatment| == 4 && |r.whenToSeekHelp| == 3
    ensures "Si empeora, descender inmediatamente" in r.treatment
  {
    AltitudeAdvice(
      ["dolor de cabeza", "mareos", "fatiga", "dificultad para respirar"],
      [
        "Aclimatarse 1-2 días en Huaraz antes de actividades de altura",
        "Hidratarse abundantemente",
        "Evitar alcohol y cafeína en exceso",
        "Comer carbohidratos",
        "Ascender lentamente"
      ],
      [
        "Descansar a una altitud menor",
        "Beber agua y té de coca",
        "Si empeora, descender inmediatamente",
        "Considerar oxígeno suplementario"
      ],
      [
        "Síntomas que empeoran después de 24 horas",
        "Dificultad extrema para respirar",
        "Confusión mental"
      ])
  }

}
