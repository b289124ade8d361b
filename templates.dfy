/**
 * The two files the scaffolding generator writes: the plugin's Go source
 * file, which registers the plugin with the host at start-up, and its
 * default landing page. Both are positional `%s` substitutions into fixed
 * templates.
 */
module PluginTemplates {
  import opened Wrappers

  /**
   * fmt.Sprintf with `%s` verbs only: a template is the list of literal
   * chunks between the verbs, and the i-th argument goes between chunk i
   * and chunk i + 1.
   */
  function Interpolate(chunks: seq<string>, args: seq<string>): string
    requires |chunks| == |args| + 1
    decreases |args|
  {
    if args == [] then chunks[0]
    else chunks[0] + args[0] + Interpolate(chunks[1..], args[1..])
  }

  /** An interpolation starts with the template's first chunk. */
  lemma InterpolateStartsWithChunk(chunks: seq<string>, args: seq<string>)
    requires |chunks| == |args| + 1
    ensures exists rest :: Interpolate(chunks, args) == chunks[0] + rest
  {
    if args != [] {
      assert Interpolate(chunks, args) == chunks[0] + (args[0] + Interpolate(chunks[1..], args[1..]));
    } else {
      assert Interpolate(chunks, args) == chunks[0] + "";
    }
  }

  /**
   * The i-th argument lands between the end of chunk i and the start of
   * chunk i + 1: whatever chunk i ends with, then the argument, then whatever
   * chunk i + 1 starts with, is a substring of the result.
   */
  lemma {:induction false} InterpolateShowsArg(chunks: seq<string>, args: seq<string>, i: nat,
                                               x: string, before: string, after: string, y: string)
    requires |chunks| == |args| + 1 && i < |args|
    requires chunks[i] == x + before && chunks[i + 1] == after + y
    ensures Contains(Interpolate(chunks, args), before + args[i] + after)
  {
    var rest := Interpolate(chunks[1..], args[1..]);
    assert Interpolate(chunks, args) == chunks[0] + args[0] + rest;
    if i == 0 {
      InterpolateStartsWithChunk(chunks[1..], args[1..]);
      var z :| rest == chunks[1] + z;
      assert Interpolate(chunks, args) == x + (before + args[0] + after) + (y + z);
      ContainsMiddle(x, before + args[0] + after, y + z);
    } else {
      InterpolateShowsArg(chunks[1..], args[1..], i - 1, x, before, after, y);
      ContainsMiddle(chunks[0] + args[0], rest, "");
      assert chunks[0] + args[0] + rest + "" == Interpolate(chunks, args);
      ContainsTransitive(Interpolate(chunks, args), rest, before + args[i] + after);
    }
  }

  /** Every chunk of the template appears in the result unchanged. */
  lemma {:induction false} InterpolateShowsChunk(chunks: seq<string>, args: seq<string>, i: nat)
    requires |chunks| == |args| + 1 && i < |chunks|
    ensures Contains(Interpolate(chunks, args), chunks[i])
  {
    if i == 0 {
      InterpolateStartsWithChunk(chunks, args);
      var z :| Interpolate(chunks, args) == chunks[0] + z;
      ContainsMiddle("", chunks[0], z);
      assert "" + chunks[0] + z == chunks[0] + z;
    } else {
      var rest := Interpolate(chunks[1..], args[1..]);
      assert Interpolate(chunks, args) == chunks[0] + args[0] + rest + "";
      InterpolateShowsChunk(chunks[1..], args[1..], i - 1);
      ContainsMiddle(chunks[0] + args[0], rest, "");
      ContainsTransitive(Interpolate(chunks, args), rest, chunks[i]);
    }
  }

  /** A template with four verbs, spelled out. */
  lemma InterpolateFour(c0: string, c1: string, c2: string, c3: string, c4: string,
                        a0: string, a1: string, a2: string, a3: string)
    ensures Interpolate([c0, c1, c2, c3, c4], [a0, a1, a2, a3]) == c0 + a0 + c1 + a1 + c2 + a2 + c3 + a3 + c4
  {
    var t, a := [c0, c1, c2, c3, c4], [a0, a1, a2, a3];
    assert Interpolate(t[4..], a[4..]) == c4;
    assert Interpolate(t[3..], a[3..]) == c3 + a3 + c4;
    assert Interpolate(t[2..], a[2..]) == c2 + a2 + (c3 + a3 + c4);
    assert Interpolate(t[1..], a[1..]) == c1 + a1 + (c2 + a2 + (c3 + a3 + c4));
  }

  /** A template with three verbs, spelled out. */
  lemma InterpolateThree(c0: string, c1: string, c2: string, c3: string, a0: string, a1: string, a2: string)
    ensures Interpolate([c0, c1, c2, c3], [a0, a1, a2]) == c0 + a0 + c1 + a1 + c2 + a2 + c3
  {
    var t, a := [c0, c1, c2, c3], [a0, a1, a2];
    assert Interpolate(t[3..], a[3..]) == c3;
    assert Interpolate(t[2..], a[2..]) == c2 + a2 + c3;
    assert Interpolate(t[1..], a[1..]) == c1 + a1 + (c2 + a2 + c3);
  }

  // ---------------------------------------------------------------------
  // plugin.go
  // ---------------------------------------------------------------------

  const GoDocHead := "// Package "
  const GoDocTail := " handles the PocketBase UI plugin embedding.\n"
  const PackageKeyword := "package "
  /** From the blank line after the package clause up to the indentation of the Name field. */
  const GoBody :=
    "\n"
    + "import (\n"
    + "\t\"embed\"\n"
    + "\t\"io/fs\"\n"
    + "\n"
    + "\t\"github.com/pocketbase/pocketbase/apis\"\n"
    + ")\n"
    + "\n"
    + "//go:embed all:dist\n"
    + "var distDir embed.FS\n"
    + "\n"
    + "var PluginDirFS, _ = fs.Sub(distDir, \"dist\")\n"
    + "\n"
    + "func init() {\n"
    + "\tapis.RegisterUIPlugin(apis.UiPlugin{\n"
    + "\t\t"
  const NameKey := "Name: \""
  const Quote := "\""
  /** Closes a quoted field value and indents the next field. */
  const FieldSep := ",\n\t\t"
  const FieldEnd := Quote + FieldSep
  const BaseKey := "Base: \""
  /** The icon every generated plugin registers with. */
  const DefaultIcon := "ri-plug-line"
  const IconField := "Icon: \"" + DefaultIcon + "\""
  const GoTail :=
    ",\n"
    + "\t\tFS:   PluginDirFS,\n"
    + "\t})\n"
    + "}\n"

  /** The plugin.go template, split at its four `%s` verbs. */
  const PluginGoChunks: seq<string> := [
    GoDocHead,
    GoDocTail + PackageKeyword,
    "\n" + GoBody + NameKey,
    FieldEnd + BaseKey,
    FieldEnd + IconField + GoTail
  ]

  /** generatePluginGo: the template filled with (normalized, normalized, name, normalized). */
  function GeneratePluginGo(name: string, normalizedName: string): string
  {
    Interpolate(PluginGoChunks, [normalizedName, normalizedName, name, normalizedName])
  }

  /** The generated source spelled out. */
  lemma PluginGoLayout(name: string, n: string)
    ensures GeneratePluginGo(name, n)
      == GoDocHead + n + (GoDocTail + PackageKeyword) + n + ("\n" + GoBody + NameKey) + name
         + (FieldEnd + BaseKey) + n + (FieldEnd + IconField + GoTail)
  {
    var c := PluginGoChunks;
    InterpolateFour(c[0], c[1], c[2], c[3], c[4], n, n, name, n);
  }

  /** plugin.go's doc comment reads `// Package <normalized> handles ...` and its package clause is `package <normalized>`. */
  lemma PluginGoDeclaresPackage(name: string, n: string)
    ensures Contains(GeneratePluginGo(name, n), GoDocHead + n + GoDocTail)
    ensures Contains(GeneratePluginGo(name, n), PackageKeyword + n + "\n")
  {
    var c, a := PluginGoChunks, [n, n, name, n];
    assert c[0] == "" + GoDocHead;
    InterpolateShowsArg(c, a, 0, "", GoDocHead, GoDocTail, PackageKeyword);
    ConcatAssoc("\n", GoBody, NameKey);
    InterpolateShowsArg(c, a, 1, GoDocTail, PackageKeyword, "\n", GoBody + NameKey);
  }

  /**
   * plugin.go registers a descriptor with `Name: "<name>"`, `Base: "<normalized>"`
   * and `Icon: "ri-plug-line"`.
   */
  lemma PluginGoRegistersDescriptor(name: string, n: string)
    ensures Contains(GeneratePluginGo(name, n), NameKey + name + Quote)
    ensures Contains(GeneratePluginGo(name, n), BaseKey + n + Quote)
    ensures Contains(GeneratePluginGo(name, n), IconField)
  {
    var c, a := PluginGoChunks, [n, n, name, n];
    ConcatAssoc(Quote, FieldSep, BaseKey);
    InterpolateShowsArg(c, a, 2, "\n" + GoBody, NameKey, Quote, FieldSep + BaseKey);
    ConcatAssoc(Quote, FieldSep, IconField);
    ConcatAssoc(Quote, FieldSep + IconField, GoTail);
    ConcatAssoc(FieldSep, IconField, GoTail);
    InterpolateShowsArg(c, a, 3, FieldEnd, BaseKey, Quote, FieldSep + IconField + GoTail);
    InterpolateShowsChunk(c, a, 4);
    ContainsMiddle(FieldEnd, IconField, GoTail);
    ContainsTransitive(GeneratePluginGo(name, n), c[4], IconField);
  }

  // ---------------------------------------------------------------------
  // dist/index.html
  // ---------------------------------------------------------------------

  const HtmlHead :=
    "<!DOCTYPE html>\n"
    + "<html>\n"
    + "<head>\n"
    + "    "
  const TitleOpen := "<title>"
  const TitleClose := "</title>"
  /** From the end of the title up to the indentation of the heading. */
  const HtmlStyle :=
    "\n"
    + "    <style>\n"
    + "        body {\n"
    + "            font-family: system-ui, -apple-system, sans-serif;\n"
    + "            max-width: 800px;\n"
    + "            margin: 0 auto;\n"
    + "            padding: 20px;\n"
    + "            line-height: 1.6;\n"
    + "        }\n"
    + "        h1 {\n"
    + "            color: #333;\n"
    + "            margin-bottom: 30px;\n"
    + "        }\n"
    + "        p {\n"
    + "            color: #666;\n"
    + "        }\n"
    + "        .container {\n"
    + "            background: #f8f9fa;\n"
    + "            border-radius: 8px;\n"
    + "            padding: 20px;\n"
    + "            margin: 20px 0;\n"
    + "        }\n"
    + "        .code {\n"
    + "            background: #e9ecef;\n"
    + "            padding: 10px;\n"
    + "            border-radius: 4px;\n"
    + "            font-family: 'Courier New', monospace;\n"
    + "            font-size: 14px;\n"
    + "        }\n"
    + "    </style>\n"
    + "</head>\n"
    + "<body>\n"
    + "    "
  const H1Open := "<h1>"
  const WelcomeTo := "Welcome to"
  const H1Close := "</h1>"
  /** The first container block, up to the span that shows the base path. */
  const HtmlIntro :=
    "\n"
    + "    <p>This is a UI plugin page for PocketBase.</p>\n"
    + "    \n"
    + "    <div class=\"container\">\n"
    + "        <h2>Getting Started</h2>\n"
    + "        <p>You can customize this page with your own content and styling.</p>\n"
    + "        <p>This plugin is registered with the base path: "
  const SpanOpen := "<span class=\"code\">"
  const SpanClose := "</span>"
  /** The rest of the first container and the whole second one. */
  const HtmlTail :=
    "</p>\n"
    + "    </div>\n"
    + "    \n"
    + "    <div class=\"container\">\n"
    + "        <h2>Development</h2>\n"
    + "        <p>To develop this plugin:</p>\n"
    + "        <ul>\n"
    + "            <li>Replace the content in the <span class=\"code\">dist/</span> directory with your frontend assets</li>\n"
    + "            <li>Build your frontend application and output to the <span class=\"code\">dist/</span> directory</li>\n"
    + "            <li>Restart your PocketBase application to see changes</li>\n"
    + "        </ul>\n"
    + "    </div>\n"
    + "</body>\n"
    + "</html>"

  const Space := " "
  /** `<h1>Welcome to `, the opening of the heading up to the name. */
  const Greeting := H1Open + WelcomeTo + Space

  /** The index.html template, split at its three `%s` verbs. */
  const IndexHtmlChunks: seq<string> := [
    HtmlHead + TitleOpen,
    TitleClose + HtmlStyle + Greeting,
    H1Close + HtmlIntro + SpanOpen,
    SpanClose + HtmlTail
  ]

  /** generateIndexHTML: the template filled with (name, name, Snakecase(name)). */
  function GenerateIndexHtml(name: string, snakecase: string -> string): string
  {
    var normalizedName := snakecase(name);
    Interpolate(IndexHtmlChunks, [name, name, normalizedName])
  }

  /** The generated page spelled out. */
  lemma IndexHtmlLayout(name: string, snakecase: string -> string)
    ensures GenerateIndexHtml(name, snakecase)
      == (HtmlHead + TitleOpen) + name + (TitleClose + HtmlStyle + Greeting) + name
         + (H1Close + HtmlIntro + SpanOpen) + snakecase(name) + (SpanClose + HtmlTail)
  {
    var c := IndexHtmlChunks;
    InterpolateThree(c[0], c[1], c[2], c[3], name, name, snakecase(name));
  }

  /** index.html is titled with the raw name: it contains `<title><name></title>`, hence the name itself. */
  lemma IndexHtmlShowsTitle(name: string, snakecase: string -> string)
    ensures Contains(GenerateIndexHtml(name, snakecase), TitleOpen + name + TitleClose)
    ensures Contains(GenerateIndexHtml(name, snakecase), name)
  {
    var c, a := IndexHtmlChunks, [name, name, snakecase(name)];
    ConcatAssoc(TitleClose, HtmlStyle, Greeting);
    InterpolateShowsArg(c, a, 0, HtmlHead, TitleOpen, TitleClose, HtmlStyle + Greeting);
    ContainsMiddle(TitleOpen, name, TitleClose);
    ContainsTransitive(GenerateIndexHtml(name, snakecase), TitleOpen + name + TitleClose, name);
  }

  /** index.html greets with `<h1>Welcome to <name></h1>`, hence contains "Welcome to". */
  lemma IndexHtmlShowsGreeting(name: string, snakecase: string -> string)
    ensures Contains(GenerateIndexHtml(name, snakecase), Greeting + name + H1Close)
    ensures Contains(GenerateIndexHtml(name, snakecase), WelcomeTo)
  {
    var c, a := IndexHtmlChunks, [name, name, snakecase(name)];
    ConcatAssoc(H1Close, HtmlIntro, SpanOpen);
    InterpolateShowsArg(c, a, 1, TitleClose + HtmlStyle, Greeting, H1Close, HtmlIntro + SpanOpen);
    ConcatAssoc(H1Open + WelcomeTo + Space, name, H1Close);
    ConcatAssoc(H1Open + WelcomeTo, Space, name + H1Close);
    ConcatAssoc(Space, name, H1Close);
    ContainsMiddle(H1Open, WelcomeTo, Space + name + H1Close);
    ContainsTransitive(GenerateIndexHtml(name, snakecase), Greeting + name + H1Close, WelcomeTo);
  }

  /** index.html shows the base path, Snakecase(name), in a `<span class="code">`. */
  lemma IndexHtmlShowsBase(name: string, snakecase: string -> string)
    ensures Contains(GenerateIndexHtml(name, snakecase), SpanOpen + snakecase(name) + SpanClose)
  {
    var c, a := IndexHtmlChunks, [name, name, snakecase(name)];
    InterpolateShowsArg(c, a, 2, H1Close + HtmlIntro, SpanOpen, SpanClose, HtmlTail);
  }
}
