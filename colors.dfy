/** Unity's Color (four real channels) and the named colours the brushes use. */
module Colors {

  datatype Color = Color(r: real, g: real, b: real, a: real)

  // UnityEngine.Color's named constants
  const Clear := Color(0.0, 0.0, 0.0, 0.0)
  const White := Color(1.0, 1.0, 1.0, 1.0)
  const Blue := Color(0.0, 0.0, 1.0, 1.0)
  const Green := Color(0.0, 1.0, 0.0, 1.0)
  const Yellow := Color(1.0, 235.0 / 255.0, 4.0 / 255.0, 1.0)
  const Red := Color(1.0, 0.0, 0.0, 1.0)
  const Magenta := Color(1.0, 0.0, 1.0, 1.0)

  /** The five colours both the bouncing-ball brush and the ball cycle through, in order */
  const Rainbow: seq<Color> := [Blue, Green, Yellow, Red, Magenta]

  /** The palette has five pairwise different colours, so a cycle through it
      repeats after exactly five steps and not sooner. */
  lemma RainbowDistinct()
    ensures |Rainbow| == 5
    ensures forall i, j :: 0 <= i < j < |Rainbow| ==> Rainbow[i] != Rainbow[j]
  {}
}
