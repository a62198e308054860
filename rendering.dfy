/** How a variable token is rendered: the extension options with their
    defaults, the choice between the deprecated `renderLabel` and the
    `renderText` / `renderHTML` renderers, and the default HTML renderer,
    which writes into the shared `HTMLAttributes` of the options. */
module Rendering {
  import opened JsText
  import opened Attributes
  import opened Palette

  /** A DOM output spec: a bare string, or `[tag, attributes, content]`. */
  datatype DomSpec = Str(s: Text) | Element(tag: Text, attrs: AttrMap, content: Text)

  /** A call that returns a value or throws (the default renderer throws on a null id). */
  datatype Completion<T> = Returned(value: T) | Threw

  /** The configured `renderHTML`: the default one, or a caller-supplied one. */
  datatype HtmlRenderer = DefaultHtmlRenderer | CustomHtmlRenderer(render: Attrs -> DomSpec)

  /** The immutable part of the options. Renderers see the node's attributes. */
  datatype Config = Config(
    renderLabel: Option<Attrs -> Text>,
    renderText: Attrs -> Text,
    renderHtml: HtmlRenderer)

  /** A rendered value with the number of deprecation warnings the call emitted. */
  datatype Rendered<T> = Rendered(value: T, warnings: nat)

  /** All that one `renderHTML` call produces: its completion, its warnings,
      and the options' `HTMLAttributes` afterwards. */
  datatype HtmlOutcome = HtmlOutcome(result: Completion<DomSpec>, warnings: nat, htmlAttributes: AttrMap)

  const CLASS: Text := Units("class")
  const STYLE: Text := Units("style")
  const VARIABLE_CLASS: Text := Units("variable")

  /** The default `renderText`: the template `${node.attrs.id}`. */
  function DefaultRenderText(node: Attrs): (t: Text)
    ensures node.id.Some? ==> t == node.id.value
    ensures node.id.None? ==> t == Units("null")
  {
    Interpolate(node.id)
  }

  /** The defaults `addOptions` returns, apart from `HTMLAttributes`. */
  const DEFAULT_CONFIG: Config := Config(None, DefaultRenderText, DefaultHtmlRenderer)
  const DEFAULT_HTML_ATTRIBUTES: AttrMap := map[CLASS := VARIABLE_CLASS]

  /** The inline style the default renderer sets: the palette colour of `id`. */
  function Style(id: Text): Text
  {
    Units("background-color: #") + COLORS[ColorIndex(id)] + Units(";")
  }

  lemma StyleKeysDistinct()
    ensures CLASS != STYLE
    ensures CLASS != DATA_TYPE && CLASS != DATA_ID && CLASS != DATA_LABEL
    ensures STYLE != DATA_TYPE && STYLE != DATA_ID && STYLE != DATA_LABEL
  {
    assert CLASS[0] != STYLE[0] && CLASS[0] != DATA_TYPE[0] && CLASS[0] != DATA_ID[0] && CLASS[0] != DATA_LABEL[0];
    assert STYLE[0] != DATA_TYPE[0] && STYLE[0] != DATA_ID[0] && STYLE[0] != DATA_LABEL[0];
  }

  /** `mergeAttributes({'data-type': name}, options.HTMLAttributes, HTMLAttributes)`:
      the type marker, then the options' bag, then the node's rendered attributes. */
  function SpanAttributes(bag: AttrMap, node: Attrs): (m: AttrMap)
    ensures m.Keys == {DATA_TYPE} + bag.Keys + RenderAttributes(node).Keys
    ensures DATA_TYPE !in bag ==> m[DATA_TYPE] == NAME
    ensures forall k :: k in bag && k !in RenderAttributes(node) ==> m[k] == bag[k]
    ensures forall k :: k in RenderAttributes(node) ==> m[k] == RenderAttributes(node)[k]
    ensures Truthy(node.id) ==> m[DATA_ID] == node.id.value
    ensures Truthy(node.labelText) ==> m[DATA_LABEL] == node.labelText.value
    ensures DATA_ID !in bag && DATA_LABEL !in bag ==>
              ParseAttributes(m) == Attrs(Canonical(node.id), Canonical(node.labelText))
  {
    KeysDistinct();
    RoundTrip(node);
    Merge(Merge(map[DATA_TYPE := NAME], bag), RenderAttributes(node))
  }

  /** A string from a renderer is wrapped in a marked `span`; any other spec is used as is. */
  function WrapString(bag: AttrMap, node: Attrs, html: DomSpec): (r: DomSpec)
    ensures r.Element?
    ensures html.Str? ==> r == Element(SPAN, SpanAttributes(bag, node), html.s)
    ensures html.Element? ==> r == html
  {
    match html
    case Str(s) => Element(SPAN, SpanAttributes(bag, node), s)
    case Element(_, _, _) => html
  }

  /** The node's `renderText`: the deprecated `renderLabel` when set (with one
      warning), otherwise the configured `renderText`. */
  function RenderText(config: Config, node: Attrs): (r: Rendered<Text>)
    ensures r.warnings == if config.renderLabel.Some? then 1 else 0
    ensures config.renderLabel.Some? ==> r.value == config.renderLabel.value(node)
    ensures config.renderLabel.None? ==> r.value == config.renderText(node)
  {
    match config.renderLabel
    case Some(renderLabel) => Rendered(renderLabel(node), 1)
    case None => Rendered(config.renderText(node), 0)
  }

  /** The options' bag after the default renderer ran on `node`. */
  function DefaultRendererBag(bag: AttrMap, node: Attrs): (b: AttrMap)
    ensures CLASS in b && b[CLASS] == VARIABLE_CLASS
    ensures node.id.Some? ==> STYLE in b && b[STYLE] == Style(node.id.value)
    ensures b.Keys == bag.Keys + {CLASS} + (if node.id.Some? then {STYLE} else {})
    ensures forall k :: k in bag && k != CLASS && k != STYLE ==> b[k] == bag[k]
    ensures node.id.None? && STYLE in bag ==> b[STYLE] == bag[STYLE]
  {
    StyleKeysDistinct();
    match node.id
    case None => bag[CLASS := VARIABLE_CLASS]
    case Some(id) => bag[CLASS := VARIABLE_CLASS][STYLE := Style(id)]
  }

  /** The node's `renderHTML`, as one function of the options and their bag. */
  function RenderHtmlSpec(config: Config, bag: AttrMap, node: Attrs): (o: HtmlOutcome)
    ensures o.warnings == if config.renderLabel.Some? then 1 else 0
    ensures o.result.Returned? ==> o.result.value.Element?
    ensures o.result.Threw? <==>
              config.renderLabel.None? && config.renderHtml.DefaultHtmlRenderer? && node.id.None?
    ensures config.renderLabel.Some? ==>
              o.result == Returned(Element(SPAN, SpanAttributes(bag, node), config.renderLabel.value(node)))
    ensures config.renderLabel.Some? || config.renderHtml.CustomHtmlRenderer? ==> o.htmlAttributes == bag
    ensures config.renderLabel.None? && config.renderHtml.CustomHtmlRenderer? ==>
              var html := config.renderHtml.render(node);
              o.result == Returned(if html.Str? then Element(SPAN, SpanAttributes(bag, node), html.s) else html)
    ensures config.renderLabel.None? && config.renderHtml.DefaultHtmlRenderer? ==>
              o.htmlAttributes == DefaultRendererBag(bag, node) &&
              (node.id.Some? ==> o.result == Returned(Element(SPAN, o.htmlAttributes, Interpolate(node.labelText))))
  {
    match config.renderLabel
    case Some(renderLabel) =>
      HtmlOutcome(Returned(Element(SPAN, SpanAttributes(bag, node), renderLabel(node))), 1, bag)
    case None =>
      match config.renderHtml
      case CustomHtmlRenderer(render) =>
        HtmlOutcome(Returned(WrapString(bag, node, render(node))), 0, bag)
      case DefaultHtmlRenderer =>
        var bag' := DefaultRendererBag(bag, node);
        if node.id.None? then HtmlOutcome(Threw, 0, bag')
        else HtmlOutcome(Returned(WrapString(bag', node, Element(SPAN, bag', Interpolate(node.labelText)))), 0, bag')
  }

  /** The extension's options; `HTMLAttributes` is the one part updated in place. */
  class VariableOptions {
    var htmlAttributes: AttrMap
    const config: Config

    /** `addOptions()` */
    constructor Defaults()
      ensures htmlAttributes == DEFAULT_HTML_ATTRIBUTES && config == DEFAULT_CONFIG
    {
      htmlAttributes := DEFAULT_HTML_ATTRIBUTES;
      config := DEFAULT_CONFIG;
    }

    constructor (htmlAttributes: AttrMap, config: Config)
      ensures this.htmlAttributes == htmlAttributes && this.config == config
    {
      this.htmlAttributes := htmlAttributes;
      this.config := config;
    }

    /** The default `renderHTML`: forces `class` to "variable" and sets the
        colour style on the shared bag, then returns a `span` carrying that
        bag and the label. A null id makes the palette hash throw. */
    method DefaultRenderHtml(node: Attrs) returns (r: Completion<DomSpec>)
      modifies this
      ensures htmlAttributes == DefaultRendererBag(old(htmlAttributes), node)
      ensures node.id.None? ==> r == Threw
      ensures node.id.Some? ==> r == Returned(Element(SPAN, htmlAttributes, Interpolate(node.labelText)))
    {
      htmlAttributes := htmlAttributes[CLASS := VARIABLE_CLASS];
      if node.id.None? {
        return Threw;
      }
      var color := GeneratePalette(node.id.value);
      htmlAttributes := htmlAttributes[STYLE := Units("background-color: #") + color + Units(";")];
      r := Returned(Element(SPAN, htmlAttributes, Interpolate(node.labelText)));
    }

    /** The node's `renderHTML`. */
    method RenderHtml(node: Attrs) returns (r: Completion<DomSpec>, warnings: nat)
      modifies this
      ensures HtmlOutcome(r, warnings, htmlAttributes) == RenderHtmlSpec(config, old(htmlAttributes), node)
    {
      if config.renderLabel.Some? {
        warnings := 1;
        r := Returned(Element(SPAN, SpanAttributes(htmlAttributes, node), config.renderLabel.value(node)));
        return;
      }
      warnings := 0;
      var html: DomSpec;
      match config.renderHtml {
        case CustomHtmlRenderer(render) =>
          html := render(node);
        case DefaultHtmlRenderer =>
          var c := DefaultRenderHtml(node);
          if c.Threw? {
            return Threw, 0;
          }
          html := c.value;
      }
      r := Returned(WrapString(htmlAttributes, node, html));
    }
  }

  /** With only the deprecated `renderLabel` configured, both paths show its
      output, each call warning once. */
  lemma LegacyRendererBothPaths(config: Config, bag: AttrMap, node: Attrs)
    requires config.renderLabel.Some?
    ensures RenderText(config, node) == Rendered(config.renderLabel.value(node), 1)
    ensures RenderHtmlSpec(config, bag, node).warnings == 1
    ensures RenderHtmlSpec(config, bag, node).result.Returned?
    ensures RenderHtmlSpec(config, bag, node).result.value.content == RenderText(config, node).value
    ensures RenderHtmlSpec(config, bag, node).htmlAttributes == bag
  {
  }

  /** With the defaults, plain-text rendering is the id verbatim and warns nothing. */
  lemma DefaultTextIsId(node: Attrs)
    ensures node.id.Some? ==> RenderText(DEFAULT_CONFIG, node) == Rendered(node.id.value, 0)
    ensures node.id.None? ==> RenderText(DEFAULT_CONFIG, node) == Rendered(Units("null"), 0)
  {
  }

  /** A renderer returning a string gives markup the parse rule recognises,
      carrying back every truthy attribute, when the options' bag does not
      shadow the marker or the data attributes. */
  lemma StringRendererRoundTrip(render: Attrs -> DomSpec, bag: AttrMap, node: Attrs)
    requires render(node).Str?
    requires DATA_TYPE !in bag && DATA_ID !in bag && DATA_LABEL !in bag
    ensures var o := RenderHtmlSpec(Config(None, DefaultRenderText, CustomHtmlRenderer(render)), bag, node);
            o.result.Returned? &&
            ParseElement(o.result.value.tag, o.result.value.attrs)
              == Some(Attrs(Canonical(node.id), Canonical(node.labelText)))
  {
  }

  /** As written, the default renderer's `span` is returned without the type
      marker and without `data-id` / `data-label`: for a set id, and when the
      options' bag holds no `data-type`, the parse rule does not recognise it,
      so a token rendered with the defaults does not come back. */
  lemma DefaultHtmlNotReparsed(bag: AttrMap, node: Attrs)
    requires node.id.Some?
    requires DATA_TYPE !in bag
    ensures var o := RenderHtmlSpec(DEFAULT_CONFIG, bag, node);
            o.result.Returned? &&
            ParseElement(o.result.value.tag, o.result.value.attrs) == None
  {
    StyleKeysDistinct();
    var bag' := DefaultRendererBag(bag, node);
    assert DATA_TYPE !in bag';
  }

  /** The concrete case: default options, a token with id "a" and label "b". */
  lemma DefaultHtmlDropsToken()
    ensures var o := RenderHtmlSpec(DEFAULT_CONFIG, DEFAULT_HTML_ATTRIBUTES, Attrs(Some(Units("a")), Some(Units("b"))));
            o.result.Returned? &&
            DATA_ID !in o.result.value.attrs &&
            ParseElement(o.result.value.tag, o.result.value.attrs) == None
  {
    StyleKeysDistinct();
    DefaultHtmlNotReparsed(DEFAULT_HTML_ATTRIBUTES, Attrs(Some(Units("a")), Some(Units("b"))));
  }

  /** The default renderer as evidently intended: it receives the merged
      attributes (type marker, options' bag, rendered data attributes), adds
      its class and colour to those, and leaves the shared bag alone. */
  function CorrectedDefaultHtml(bag: AttrMap, node: Attrs): (r: Completion<DomSpec>)
    ensures r.Threw? <==> node.id.None?
    ensures r.Returned? ==> r.value.Element? && r.value.tag == SPAN
  {
    match node.id
    case None => Threw
    case Some(id) =>
      Returned(Element(SPAN, SpanAttributes(bag, node)[CLASS := VARIABLE_CLASS][STYLE := Style(id)],
                       Interpolate(node.labelText)))
  }

  /** For a set id, and when the options' bag holds no `data-type`, `data-id`
      or `data-label`, the corrected renderer's output is recognised and gives
      back the token's attributes; with truthy id and label it gives back the
      token exactly. */
  lemma CorrectedDefaultHtmlRoundTrip(bag: AttrMap, node: Attrs)
    requires node.id.Some?
    requires DATA_TYPE !in bag && DATA_ID !in bag && DATA_LABEL !in bag
    ensures var r := CorrectedDefaultHtml(bag, node);
            r.Returned? &&
            ParseElement(r.value.tag, r.value.attrs) == Some(Attrs(Canonical(node.id), Canonical(node.labelText)))
    ensures Truthy(node.id) && Truthy(node.labelText) ==>
              ParseElement(CorrectedDefaultHtml(bag, node).value.tag, CorrectedDefaultHtml(bag, node).value.attrs)
                == Some(node)
  {
    StyleKeysDistinct();
    var m := SpanAttributes(bag, node);
    var m' := m[CLASS := VARIABLE_CLASS][STYLE := Style(node.id.value)];
    assert ParseAttributes(m') == ParseAttributes(m);
  }
}
