/**
 * content/homeprice/remove_inline_styles.py: an HTML pass-through that moves
 * every `style` attribute into a generated class `inline-style-N` and collects
 * the styles so that they can be printed as a stylesheet afterwards. The HTML
 * tokenizer is not modelled: the handlers receive the tag name and the
 * attribute (name, value) pairs directly, and return the line they print.
 */
module InlineStyles {
  import opened Wrappers
  import opened PyText
  import opened AttrDict

  /** A value with every `"` written as the entity `&quot;`. */
  function Escape(v: string): (r: string)
    ensures '"' !in r
    ensures '"' !in v ==> r == v
  {
    if v == [] then []
    else if v[0] == '"' then "&quot;" + Escape(v[1..])
    else [v[0]] + Escape(v[1..])
  }

  /** How an HTML reader turns `&quot;` back into `"`. */
  function Unescape(s: string): string
  {
    if |s| >= 6 && s[..6] == "&quot;" then "\"" + Unescape(s[6..])
    else if s == [] then []
    else [s[0]] + Unescape(s[1..])
  }

  /**
   * A value without `&` is read back exactly from its escaped form. (A value
   * holding the text `&quot;` would be read back with a `"` in its place,
   * because `&` itself is not escaped.)
   */
  lemma {:induction false} EscapeRoundTrip(v: string)
    requires '&' !in v
    ensures Unescape(Escape(v)) == v
  {
    if v != [] {
      EscapeRoundTrip(v[1..]);
      if v[0] == '"' {
        var e := "&quot;" + Escape(v[1..]);
        assert e[..6] == "&quot;" && e[6..] == Escape(v[1..]);
      } else {
        var e := [v[0]] + Escape(v[1..]);
        assert e[0] == v[0] && e[1..] == Escape(v[1..]);
      }
    }
  }

  /** The number of `"` characters in s. */
  function Quotes(s: string): nat
  {
    multiset(s)['"']
  }

  /** The attributes as one string: each as a space, its name, `=` and its escaped value in `"`, in dict order. */
  function AttrString(d: Dict): string
  {
    if d == [] then ""
    else " " + d[0].0 + "=\"" + Escape(d[0].1) + "\"" + AttrString(d[1..])
  }

  /**
   * With attribute names free of `"`, the attribute string holds exactly two
   * `"` per attribute, the delimiters of its value: no raw `"` is left inside
   * a quoted value.
   */
  lemma {:induction false} AttrStringQuotes(d: Dict)
    requires forall i :: 0 <= i < |d| ==> '"' !in d[i].0
    ensures Quotes(AttrString(d)) == 2 * |d|
  {
    if d != [] {
      AttrStringQuotes(d[1..]);
      var v := Escape(d[0].1);
      assert multiset(v)['"'] == 0;
      assert multiset(d[0].0)['"'] == 0;
    }
  }

  /** The line printed for a start tag with attributes `d`. */
  function StartTag(tag: string, d: Dict): string
  {
    "<" + tag + AttrString(d) + ">"
  }

  /**
   * A tag without attributes has no style to move, so it is printed as `<tag>`
   * whatever the counter.
   */
  lemma StartTagNoAttributes(tag: string, n: nat)
    ensures Rewritten([], n) == []
    ensures StartTag(tag, Rewritten([], n)) == "<" + tag + ">"
  {
  }

  /** The name of the n-th collected style: `inline-style-` followed by n in decimal. */
  function ClassNameFor(n: nat): (name: string)
    ensures IsToken(name)
  {
    "inline-style-" + Decimal(n)
  }

  /** Different counters give different class names. */
  lemma ClassNameForInjective(a: nat, b: nat)
    requires ClassNameFor(a) == ClassNameFor(b)
    ensures a == b
  {
    var p := "inline-style-";
    assert ClassNameFor(a)[|p|..] == Decimal(a);
    assert ClassNameFor(b)[|p|..] == Decimal(b);
    DecimalInjective(a, b);
  }

  /** The attributes of a styled tag: the class name appended to its class tokens, `style` removed. */
  function Restyle(d: Dict, className: string): Dict
  {
    var classes := Split(Get(d, "class", "")) + [className];
    Remove(Set(d, "class", Join(classes)), "style")
  }

  /** The attributes printed for a start tag when n styles have been collected before it. */
  function Rewritten(attrs: seq<(string, string)>, n: nat): Dict
  {
    var d := FromPairs(attrs);
    if HasKey(d, "style") then Restyle(d, ClassNameFor(n)) else d
  }

  /**
   * What handle_starttag does to the attributes: the result never has a
   * `style` attribute and never repeats a name. On a styled tag the class
   * attribute's tokens are the old ones in order followed by the new class
   * name, and every other attribute keeps its value and its place. An unstyled
   * tag keeps its attributes as `dict(attrs)` has them, which is `attrs` itself
   * when no name repeats.
   */
  lemma RewrittenAttributes(attrs: seq<(string, string)>, n: nat)
    ensures var r := Rewritten(attrs, n);
      && !HasKey(r, "style")
      && DistinctKeys(r)
    ensures var d, r := FromPairs(attrs), Rewritten(attrs, n);
      HasKey(d, "style") ==>
        && HasKey(r, "class")
        && Split(Get(r, "class", "")) == Split(Get(d, "class", "")) + [ClassNameFor(n)]
        && Others(r, "class", "style") == Others(d, "class", "style")
        && (forall x :: x != "class" && x != "style" ==>
              (HasKey(r, x) <==> HasKey(d, x)) && Get(r, x, "") == Get(d, x, ""))
    ensures !HasKey(FromPairs(attrs), "style") ==> Rewritten(attrs, n) == FromPairs(attrs)
    ensures !HasKey(attrs, "style") && DistinctKeys(attrs) ==> Rewritten(attrs, n) == attrs
  {
    var d := FromPairs(attrs);
    if HasKey(d, "style") {
      var name := ClassNameFor(n);
      var classValue := Join(Split(Get(d, "class", "")) + [name]);
      var s := Set(d, "class", classValue);
      var r := Remove(s, "style");
      GetAfterRemove(s, "style", "class", "");
      GetAfterSet(d, "class", classValue, "class", "");
      SplitJoinAppend(Get(d, "class", ""), name);
      OthersAfterSet(d, "class", "style", classValue);
      OthersAfterRemove(s, "class", "style");
      forall x | x != "class" && x != "style"
        ensures Get(r, x, "") == Get(d, x, "")
      {
        GetAfterRemove(s, "style", x, "");
        GetAfterSet(d, "class", classValue, x, "");
      }
    }
    if !HasKey(attrs, "style") && DistinctKeys(attrs) {
      FromDistinctPairs(attrs);
    }
  }

  /** The line of 72 equals signs printed between the page and the stylesheet. */
  function Separator(): (line: string)
    ensures |line| == 72 && forall i :: 0 <= i < 72 ==> line[i] == '='
  {
    seq(72, _ => '=')
  }

  /** The stylesheet rule for one collected style: a class selector, then the style in braces. */
  function Rule(className: string, style: string): string
  {
    "." + className + " {" + style + "}"
  }

  /**
   * The selector of a rule for a generated class is `.` and the class name,
   * ended by the space that `str.split()` or a CSS reader stops at; so rules
   * for different counters have different selectors.
   */
  lemma RuleSelector(n: nat, style: string)
    ensures var rule := Rule(ClassNameFor(n), style);
      rule[..TokenLength(rule)] == "." + ClassNameFor(n)
  {
    var sel := "." + ClassNameFor(n);
    var rest := " {" + style + "}";
    assert Rule(ClassNameFor(n), style) == sel + rest;
    TokenLengthOfPrefix(sel, rest);
  }

  /** The collected styles of a valid parser: the n-th is named by the counter n. */
  ghost predicate NamedByCounter(styles: Dict)
  {
    forall i :: 0 <= i < |styles| ==> styles[i].0 == ClassNameFor(i)
  }

  /** Storing the next style under the counter's name keeps the styles named by the counter. */
  lemma NamedByCounterAppend(styles: Dict, style: string)
    requires NamedByCounter(styles)
    ensures NamedByCounter(styles + [(ClassNameFor(|styles|), style)])
  {
  }

  /**
   * Generated class names never collide: the names collected so far are
   * pairwise distinct, and the next one is none of them, so each
   * `self.styles[classname] = ...` adds a new entry at the end of the dict.
   */
  lemma CollectedNamesDistinct(styles: Dict)
    requires NamedByCounter(styles)
    ensures forall i, j :: 0 <= i < j < |styles| ==> styles[i].0 != styles[j].0
    ensures forall i :: 0 <= i < |styles| ==> styles[i].0 != ClassNameFor(|styles|)
  {
    forall i, j | 0 <= i < j <= |styles|
      ensures ClassNameFor(i) != ClassNameFor(j)
    {
      if ClassNameFor(i) == ClassNameFor(j) {
        ClassNameForInjective(i, j);
      }
    }
  }

  /**
   * `self.styles[classname] = style` with the next counter's name: the name is
   * not yet a key, so the store adds the entry at the end of the dict.
   */
  lemma StoreAppends(styles: Dict, style: string)
    requires NamedByCounter(styles)
    ensures var name := ClassNameFor(|styles|);
      !HasKey(styles, name) && Set(styles, name, style) == styles + [(name, style)]
  {
    var name := ClassNameFor(|styles|);
    CollectedNamesDistinct(styles);
    if HasKey(styles, name) {
      HasKeyIndex(styles, name);
    }
  }

  /** MyHTMLParser: the handlers of the pass-through and the styles they collect. */
  class StyleExtractor {
    /** `self.styles`, a dict from generated class names to styles. */
    var styles: Dict

    ghost predicate Valid()
      reads this
    {
      NamedByCounter(styles)
    }

    /** `__init__`: no styles collected yet. */
    constructor ()
      ensures Valid() && styles == []
    {
      styles := [];
    }

    /**
     * handle_starttag: a styled tag adds one entry, named by the number of
     * styles collected before, holding verbatim the value of its last `style`
     * attribute; any other tag leaves the styles alone. The printed line is
     * the tag with its rewritten attributes.
     */
    method HandleStartTag(tag: string, attrs: seq<(string, string)>) returns (line: string)
      requires Valid()
      modifies this
      ensures Valid()
      ensures line == StartTag(tag, Rewritten(attrs, |old(styles)|))
      ensures HasKey(attrs, "style") ==>
        styles == old(styles) + [(ClassNameFor(|old(styles)|), LastValue(attrs, "style", ""))]
      ensures !HasKey(attrs, "style") ==> styles == old(styles)
    {
      var attrDict := FromPairs(attrs);
      ghost var n, d := |styles|, attrDict;
      if HasKey(attrDict, "style") {
        FromPairsLastValue(attrs, "style", "");
        var className := "inline-style-" + Decimal(|styles|);
        assert className == ClassNameFor(n);
        NamedByCounterAppend(styles, Get(attrDict, "style", ""));
        StoreAppends(styles, Get(attrDict, "style", ""));
        styles := Set(styles, className, Get(attrDict, "style", ""));
        var classes := Split(Get(attrDict, "class", ""));
        classes := classes + [className];
        attrDict := Set(attrDict, "class", Join(classes));
        attrDict := Remove(attrDict, "style");
        assert attrDict == Restyle(d, ClassNameFor(n));
      }
      assert attrDict == Rewritten(attrs, n);
      var attrString := if |attrs| > 0 then AttrString(attrDict) else "";
      assert attrString == AttrString(Rewritten(attrs, n));
      line := "<" + tag + attrString + ">";
    }

    /** handle_endtag: `</tag>` for every tag but `br`, which prints nothing. */
    method HandleEndTag(tag: string) returns (line: Option<string>)
      ensures line.None? <==> tag == "br"
      ensures tag != "br" ==> line == Some("</" + tag + ">")
    {
      if tag != "br" {
        return Some("</" + tag + ">");
      }
      return None;
    }

    /**
     * The lines printed after the page: the separator, then one rule per
     * collected style, in insertion order.
     */
    method StyleSheet() returns (lines: seq<string>)
      ensures |lines| == |styles| + 1
      ensures lines[0] == Separator()
      ensures forall i :: 0 <= i < |styles| ==> lines[i + 1] == Rule(styles[i].0, styles[i].1)
    {
      lines := [Separator()];
      var i := 0;
      while i < |styles|
        invariant 0 <= i <= |styles|
        invariant |lines| == i + 1 && lines[0] == Separator()
        invariant forall k :: 0 <= k < i ==> lines[k + 1] == Rule(styles[k].0, styles[k].1)
      {
        var (className, style) := styles[i];
        lines := lines + [Rule(className, style)];
        i := i + 1;
      }
    }
  }
}
