/**
 * The shared Button of src/compoundedComponent/Button.tsx: the caller's
 * optional className picks one of four colour styles by substring, first
 * "primary", then "secondary", then "tertiary", else a gray default; the
 * rendered class string is the fixed base, that style, and the caller's
 * className as written.
 */
module Button {
  import opened Common

  const PrimaryStyle := "border-2 border-white text-white bg-transparent hover:bg-white hover:text-black cursor-pointer"
  const SecondaryStyle := "bg-yellow-400 text-white border-yellow-400 hover:bg-yellow-800 cursor-pointer"
  const TertiaryStyle := "bg-blue-700 text-white border-blue-700 hover:bg-blue-800 cursor-pointer"
  const DefaultStyle := "bg-gray-200 text-gray-800 border-gray-300 hover:bg-gray-300"

  /** The classes every button carries, up to and including the space before the style. */
  const BaseClasses := "z-100 px-4 py-2 rounded-lg font-semibold transition duration-300 ease-in-out shadow-md "

  /** `className?.includes(word)`: false when no className is given. */
  ghost predicate Mentions(className: Option<string>, word: string)
  {
    className.Some? && IsSubstring(word, className.value)
  }

  /**
   * The colour style: the first of "primary", "secondary", "tertiary" that
   * occurs anywhere in className decides it, and none (or no className at
   * all) gives the gray default.
   */
  function ButtonType(className: Option<string>): (r: string)
    ensures r == PrimaryStyle <==> Mentions(className, "primary")
    ensures r == SecondaryStyle <==> !Mentions(className, "primary") && Mentions(className, "secondary")
    ensures r == TertiaryStyle <==>
      !Mentions(className, "primary") && !Mentions(className, "secondary") && Mentions(className, "tertiary")
    ensures r == DefaultStyle <==>
      !Mentions(className, "primary") && !Mentions(className, "secondary") && !Mentions(className, "tertiary")
  {
    if className.None? then DefaultStyle
    else
      var s := className.value;
      IncludesIffSubstring(s, "primary");
      IncludesIffSubstring(s, "secondary");
      IncludesIffSubstring(s, "tertiary");
      if Includes(s, "primary") then PrimaryStyle
      else if Includes(s, "secondary") then SecondaryStyle
      else if Includes(s, "tertiary") then TertiaryStyle
      else DefaultStyle
  }

  /** The template literal's rendering of className: undefined prints as "undefined". */
  function Interpolated(className: Option<string>): string
  {
    if className.Some? then className.value else "undefined"
  }

  /**
   * The rendered class string: the base classes, the chosen style, one space,
   * and the caller's className verbatim at the very end.
   */
  function ButtonClass(className: Option<string>): (r: string)
    ensures StartsWith(r, BaseClasses + ButtonType(className) + " ")
    ensures EndsWith(r, Interpolated(className))
    ensures |r| == |BaseClasses| + |ButtonType(className)| + 1 + |Interpolated(className)|
  {
    var head, tail := BaseClasses + ButtonType(className) + " ", Interpolated(className);
    assert (head + tail)[..|head|] == head;
    assert (head + tail)[|head|..] == tail;
    head + tail
  }

  /** Substring matching: "notprimary" still counts as primary. */
  lemma NotPrimaryIsPrimary()
    ensures ButtonType(Some("notprimary")) == PrimaryStyle
  {
    assert OccursAt("notprimary", "primary", 3);
  }

  /** "primary" wins over the other words wherever they stand. */
  lemma PrimaryWinsOverSecondary()
    ensures ButtonType(Some("secondary primary")) == PrimaryStyle
  {
    assert OccursAt("secondary primary", "primary", 10);
  }

  /** Without a className the button is gray and its class string ends in "undefined". */
  lemma MissingClassNameRendersUndefined()
    ensures ButtonType(None) == DefaultStyle
    ensures EndsWith(ButtonClass(None), "undefined")
  {
  }

  /** The caller's className occurs in the rendered class string. */
  lemma ClassNameKept(className: string)
    ensures IsSubstring(className, ButtonClass(Some(className)))
  {
    var r := ButtonClass(Some(className));
    var i := |r| - |className|;
    assert EndsWith(r, className);
    assert r[i..i + |className|] == r[i..];
    assert OccursAt(r, className, i);
  }
}
