/**
 * The text fragments the pager writes: decimal numerals for page numbers
 * (`int.ToString()`) and the anchor tag with its unobtrusive-AJAX
 * attributes.
 */
module Markup {
  /** One HTML attribute, name and value, as the AJAX options produce it. */
  type Attribute = (string, string)

  function Digit(d: nat): char
    requires d < 10
  {
    ('0' as int + d) as char
  }

  /** The decimal numeral of a natural number, most significant digit first. */
  function NaturalText(n: nat): (s: string)
    ensures 1 <= |s|
    ensures forall i :: 0 <= i < |s| ==> '0' <= s[i] <= '9'
    ensures 1 <= n ==> s[0] != '0'
    decreases n
  {
    if n < 10 then [Digit(n)] else NaturalText(n / 10) + [Digit(n % 10)]
  }

  /** `int.ToString()`: a minus sign before the numeral of a negative number. */
  function IntegerText(i: int): string
  {
    if i < 0 then "-" + NaturalText(-i) else NaturalText(i)
  }

  /** Reads a string of decimal digits back as a number. */
  function ParseNatural(s: string): nat
    requires forall i :: 0 <= i < |s| ==> '0' <= s[i] <= '9'
  {
    if s == [] then 0
    else ParseNatural(s[..|s| - 1]) * 10 + (s[|s| - 1] as int - '0' as int)
  }

  /** The numeral of a page number determines the number: distinct pages get distinct labels. */
  lemma {:induction false} NaturalTextRoundTrip(n: nat)
    ensures ParseNatural(NaturalText(n)) == n
    decreases n
  {
    if 10 <= n {
      var s := NaturalText(n);
      NaturalTextRoundTrip(n / 10);
      assert s[..|s| - 1] == NaturalText(n / 10);
    }
  }

  /** The attributes written one after another, each as ` name="value"`. */
  function AttributeText(attributes: seq<Attribute>): string
  {
    if attributes == [] then ""
    else
      var last := attributes[|attributes| - 1];
      AttributeText(attributes[..|attributes| - 1]) + " " + last.0 + "=\"" + last.1 + "\""
  }

  /** The anchor: `<a`, the AJAX attributes in order, then the href and the link text. */
  function Anchor(attributes: seq<Attribute>, path: string, text: string): string
  {
    "<a" + AttributeText(attributes) + " href=\"" + path + "\">" + text + "</a>"
  }
}
