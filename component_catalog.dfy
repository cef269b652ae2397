/** The static component catalog (an ordered list of libraries, each an
    ordered list of named components with their details) and the three
    queries over it: template generation, the total count and the
    case-insensitive name search. */
module ComponentCatalog {
  import opened Js
  import opened AsciiText

  /** What the catalog records about a component, kept as its literal text. */
  datatype Details = Details(literal: string)

  datatype Component = Component(name: string, details: Details)

  datatype Library = Library(name: string, components: seq<Component>)

  /** One search result: `{ library, component, details }`. */
  datatype Match = Match(library: string, component: string, details: Details)

  const Catalog: seq<Library> := [
      Library("rne", [
        Component("Avatar", Details("{ variants: ['rounded', 'square'], sizes: ['small', 'medium', 'large'] }")),
        Component("Badge", Details("{ types: ['success', 'warning', 'error', 'primary'] }")),
        Component("Button", Details("{ types: ['solid', 'clear', 'outline'], sizes: ['sm', 'md', 'lg'] }")),
        Component("Card", Details("{ variants: ['elevated', 'outlined', 'flat'] }")),
        Component("CheckBox", Details("{ variants: ['default', 'circular'] }")),
        Component("Header", Details("{ placement: ['left', 'center', 'right'] }")),
        Component("Icon", Details("{ types: ['material', 'font-awesome', 'ionicon', 'feather'] }")),
        Component("Input", Details("{ types: ['default', 'password', 'email', 'phone', 'numeric'] }")),
        Component("ListItem", Details("{ variants: ['basic', 'accordion', 'swipeable'] }")),
        Component("Overlay", Details("{ animations: ['fade', 'slide'] }")),
        Component("SearchBar", Details("{ platforms: ['default', 'ios', 'android'] }")),
        Component("Slider", Details("{ orientations: ['horizontal', 'vertical'] }")),
        Component("Switch", Details("{ platforms: ['ios', 'android'] }")),
        Component("Tab", Details("{ variants: ['default', 'button'] }"))
      ]),
      Library("nativeBase", [
        Component("Actionsheet", Details("{ variants: ['default', 'full-screen'] }")),
        Component("Alert", Details("{ status: ['success', 'error', 'warning', 'info'] }")),
        Component("AspectRatio", Details("{ ratios: ['16:9', '4:3', '1:1'] }")),
        Component("Box", Details("{ variants: ['default', 'rounded', 'shadow'] }")),
        Component("Center", Details("{ variants: ['default', 'square', 'circle'] }")),
        Component("Container", Details("{ maxW: ['sm', 'md', 'lg', 'xl', 'full'] }")),
        Component("Divider", Details("{ orientation: ['horizontal', 'vertical'] }")),
        Component("Flex", Details("{ direction: ['row', 'column'], wrap: ['wrap', 'nowrap'] }")),
        Component("FormControl", Details("{ variants: ['floating', 'stacked', 'unstyled'] }")),
        Component("Heading", Details("{ sizes: ['xs', 'sm', 'md', 'lg', 'xl', '2xl'] }")),
        Component("HStack", Details("{ spacing: [1, 2, 3, 4, 5] }")),
        Component("Image", Details("{ sizes: ['xs', 'sm', 'md', 'lg', 'xl', 'full'] }")),
        Component("Menu", Details("{ placement: ['top', 'bottom', 'left', 'right'] }")),
        Component("Modal", Details("{ sizes: ['xs', 'sm', 'md', 'lg', 'full'] }")),
        Component("Popover", Details("{ placement: ['top', 'bottom', 'left', 'right'] }")),
        Component("Progress", Details("{ variants: ['default', 'rounded'] }")),
        Component("Radio", Details("{ sizes: ['sm', 'md', 'lg'] }")),
        Component("Select", Details("{ variants: ['outline', 'filled', 'unstyled'] }")),
        Component("Skeleton", Details("{ variants: ['text', 'rect', 'circle'] }")),
        Component("Spinner", Details("{ sizes: ['sm', 'lg'] }")),
        Component("Stack", Details("{ direction: ['column', 'row'] }")),
        Component("Text", Details("{ sizes: ['xs', 'sm', 'md', 'lg', 'xl'] }")),
        Component("Toast", Details("{ positions: ['top', 'bottom', 'top-right', 'bottom-left'] }")),
        Component("VStack", Details("{ spacing: [1, 2, 3, 4, 5] }"))
      ]),
      Library("uiKitten", [
        Component("ApplicationProvider", Details("{ themes: ['light', 'dark'] }")),
        Component("Avatar", Details("{ shapes: ['round', 'rounded', 'square'] }")),
        Component("BottomNavigation", Details("{ appearance: ['default', 'noIndicator'] }")),
        Component("Button", Details("{ status: ['primary', 'success', 'info', 'warning', 'danger', 'basic'] }")),
        Component("ButtonGroup", Details("{ status: ['primary', 'success', 'info', 'warning', 'danger'] }")),
        Component("Calendar", Details("{ bounds: ['month', 'year'] }")),
        Component("Card", Details("{ status: ['primary', 'success', 'info', 'warning', 'danger'] }")),
        Component("CheckBox", Details("{ status: ['primary', 'success', 'info', 'warning', 'danger'] }")),
        Component("Datepicker", Details("{ bounds: ['month', 'year'] }")),
        Component("Drawer", Details("{ appearance: ['default', 'noDivider'] }")),
        Component("Icon", Details("{ packs: ['eva', 'ant', 'feather', 'ion', 'material'] }")),
        Component("Input", Details("{ status: ['primary', 'success', 'info', 'warning', 'danger'] }")),
        Component("Layout", Details("{ levels: ['1', '2', '3', '4'] }")),
        Component("List", Details("{ appearance: ['default', 'divided'] }")),
        Component("Menu", Details("{ appearance: ['default', 'grouped'] }")),
        Component("MenuItem", Details("{ accessoryLeft: true, accessoryRight: true }")),
        Component("Modal", Details("{ backdropStyle: ['default', 'blur'] }")),
        Component("OverflowMenu", Details("{ placement: ['top', 'bottom', 'left', 'right'] }")),
        Component("Popover", Details("{ placement: ['top', 'bottom', 'left', 'right'] }")),
        Component("Radio", Details("{ status: ['primary', 'success', 'info', 'warning', 'danger'] }")),
        Component("RadioGroup", Details("{ status: ['primary', 'success', 'info', 'warning', 'danger'] }")),
        Component("RangeCalendar", Details("{ bounds: ['month', 'year'] }")),
        Component("Select", Details("{ status: ['primary', 'success', 'info', 'warning', 'danger'] }")),
        Component("Spinner", Details("{ status: ['primary', 'success', 'info', 'warning', 'danger'] }")),
        Component("TabBar", Details("{ appearance: ['default', 'divider'] }")),
        Component("Text", Details("{ categories: ['h1', 'h2', 'h3', 'h4', 'h5', 'h6', 's1', 's2', 'p1', 'p2', 'c1', 'c2'] }")),
        Component("Toggle", Details("{ status: ['primary', 'success', 'info', 'warning', 'danger'] }")),
        Component("Tooltip", Details("{ placement: ['top', 'bottom', 'left', 'right'] }")),
        Component("TopNavigation", Details("{ appearance: ['default', 'control'] }"))
      ]),
      Library("paper", [
        Component("Appbar", Details("{ modes: ['small', 'medium', 'large', 'center-aligned'] }")),
        Component("Avatar", Details("{ variants: ['icon', 'image', 'text'] }")),
        Component("Badge", Details("{ sizes: ['small', 'large'] }")),
        Component("Banner", Details("{ actions: ['one', 'two'] }")),
        Component("BottomNavigation", Details("{ shifting: [true, false] }")),
        Component("Button", Details("{ modes: ['text', 'outlined', 'contained', 'elevated', 'contained-tonal'] }")),
        Component("Card", Details("{ modes: ['elevated', 'outlined'] }")),
        Component("Checkbox", Details("{ status: ['checked', 'unchecked', 'indeterminate'] }")),
        Component("Chip", Details("{ modes: ['flat', 'outlined'] }")),
        Component("DataTable", Details("{ variants: ['default', 'numeric'] }")),
        Component("Dialog", Details("{ dismissable: [true, false] }")),
        Component("Divider", Details("{ variants: ['full-width', 'inset', 'middle'] }")),
        Component("FAB", Details("{ variants: ['regular', 'small', 'extended'] }")),
        Component("HelperText", Details("{ types: ['error', 'info'] }")),
        Component("IconButton", Details("{ modes: ['outlined', 'contained', 'contained-tonal'] }")),
        Component("List", Details("{ variants: ['one-line', 'two-line', 'three-line'] }")),
        Component("Menu", Details("{ anchor: ['top', 'bottom'] }")),
        Component("ProgressBar", Details("{ variants: ['determinate', 'indeterminate'] }")),
        Component("RadioButton", Details("{ status: ['checked', 'unchecked'] }")),
        Component("Searchbar", Details("{ modes: ['bar', 'view'] }")),
        Component("SegmentedButtons", Details("{ multiSelect: [true, false] }")),
        Component("Snackbar", Details("{ duration: ['short', 'medium', 'long'] }")),
        Component("Surface", Details("{ elevation: [0, 1, 2, 3, 4, 5] }")),
        Component("Switch", Details("{ platforms: ['ios', 'android'] }")),
        Component("TextInput", Details("{ modes: ['flat', 'outlined'] }")),
        Component("ToggleButton", Details("{ variants: ['row', 'group'] }"))
      ]),
      Library("icons", [
        Component("material", Details("['home', 'search', 'favorite', 'shopping-cart', 'account-circle', 'menu', 'close', 'settings', 'email', 'phone']")),
        Component("ionicons", Details("['ios-home', 'ios-search', 'ios-heart', 'ios-cart', 'ios-person', 'ios-menu', 'ios-close', 'ios-settings']")),
        Component("fontAwesome", Details("['home', 'search', 'heart', 'shopping-cart', 'user', 'bars', 'times', 'cog', 'envelope', 'phone']")),
        Component("feather", Details("['home', 'search', 'heart', 'shopping-cart', 'user', 'menu', 'x', 'settings', 'mail', 'phone']")),
        Component("antDesign", Details("['home', 'search', 'heart', 'shoppingcart', 'user', 'menu', 'close', 'setting', 'mail', 'phone']"))
      ]),
      Library("animations", [
        Component("animatable", Details("['bounce', 'flash', 'pulse', 'rotate', 'shake', 'swing', 'tada', 'wobble', 'fadeIn', 'fadeOut', 'slideIn']")),
        Component("lottie", Details("['loading', 'success', 'error', 'heart', 'star', 'confetti', 'check', 'spinner']"))
      ]),
      Library("charts", [
        Component("types", Details("['line', 'bar', 'pie', 'doughnut', 'radar', 'polar', 'bubble', 'scatter', 'area', 'mixed']")),
        Component("libraries", Details("['react-native-chart-kit', 'react-native-svg-charts', 'victory-native']"))
      ]),
      Library("forms", [
        Component("inputs", Details("['text', 'password', 'email', 'phone', 'numeric', 'multiline', 'masked', 'otp']")),
        Component("pickers", Details("['date', 'time', 'datetime', 'select', 'multi-select', 'country', 'color']")),
        Component("validation", Details("['required', 'email', 'phone', 'numeric', 'min-length', 'max-length', 'pattern']"))
      ]),
      Library("layouts", [
        Component("containers", Details("['safe-area', 'scroll-view', 'keyboard-avoiding', 'touchable-without-feedback']")),
        Component("grids", Details("['flex', 'grid', 'absolute', 'stack', 'wrap']")),
        Component("spacers", Details("['margin', 'padding', 'gap', 'space-between', 'space-around']"))
      ])
    ]

  /** Object keys are unique: no two libraries share a name, and no library
      lists two components under one name. */
  ghost predicate WellFormed(catalog: seq<Library>) {
    && (forall i, j :: 0 <= i < j < |catalog| ==> catalog[i].name != catalog[j].name)
    && (forall i :: 0 <= i < |catalog| ==> UniqueNames(catalog[i].components))
  }

  ghost predicate UniqueNames(components: seq<Component>) {
    forall j, k :: 0 <= j < k < |components| ==> components[j].name != components[k].name
  }

  ghost predicate Distinct<T>(s: seq<T>) {
    forall j, k :: 0 <= j < k < |s| ==> s[j] != s[k]
  }

  // ---------------------------------------------------------------------
  // Entries in catalog order, and the total count

  /** The entries of one library, tagged with its name, in listing order. */
  function LibraryEntries(lib: Library): (ms: seq<Match>)
    ensures |ms| == |lib.components|
    ensures forall j :: 0 <= j < |ms| ==>
              ms[j] == Match(lib.name, lib.components[j].name, lib.components[j].details)
  {
    seq(|lib.components|, j requires 0 <= j < |lib.components| =>
      Match(lib.name, lib.components[j].name, lib.components[j].details))
  }

  /** Every entry of the catalog: library by library, entry by entry. */
  function Entries(catalog: seq<Library>): seq<Match> {
    if catalog == [] then []
    else Entries(catalog[..|catalog| - 1]) + LibraryEntries(catalog[|catalog| - 1])
  }

  /** `getTotalComponents`: `reduce` over the library keys, adding each
      library's key count to the accumulator. */
  function TotalComponents(catalog: seq<Library>): nat {
    if catalog == [] then 0
    else TotalComponents(catalog[..|catalog| - 1]) + |catalog[|catalog| - 1].components|
  }

  /** The count is the number of catalog entries. */
  lemma {:induction false} EntriesCount(catalog: seq<Library>)
    ensures |Entries(catalog)| == TotalComponents(catalog)
  {
    if catalog != [] {
      EntriesCount(catalog[..|catalog| - 1]);
    }
  }

  /** `m` is the entry of some component of some library. */
  ghost predicate InCatalog(catalog: seq<Library>, m: Match) {
    exists i, j :: 0 <= i < |catalog| && 0 <= j < |catalog[i].components|
      && m == Match(catalog[i].name, catalog[i].components[j].name, catalog[i].components[j].details)
  }

  lemma {:induction false} EntriesAreCatalogEntries(catalog: seq<Library>, m: Match)
    ensures m in Entries(catalog) <==> InCatalog(catalog, m)
  {
    if catalog != [] {
      var init, last := catalog[..|catalog| - 1], catalog[|catalog| - 1];
      EntriesAreCatalogEntries(init, m);
      if m in LibraryEntries(last) {
        var j :| 0 <= j < |last.components| && LibraryEntries(last)[j] == m;
        assert catalog[|catalog| - 1].components[j] == last.components[j];
      }
      if InCatalog(catalog, m) {
        var i, j :| 0 <= i < |catalog| && 0 <= j < |catalog[i].components|
          && m == Match(catalog[i].name, catalog[i].components[j].name, catalog[i].components[j].details);
        if i < |catalog| - 1 {
          assert init[i] == catalog[i];
          assert InCatalog(init, m);
        } else {
          assert LibraryEntries(last)[j] == m;
        }
      }
    }
  }

  /** Unique keys give unique entries. */
  lemma {:induction false} EntriesDistinct(catalog: seq<Library>)
    requires WellFormed(catalog)
    ensures Distinct(Entries(catalog))
  {
    if catalog != [] {
      var init, last := catalog[..|catalog| - 1], catalog[|catalog| - 1];
      assert WellFormed(init) by {
        forall i | 0 <= i < |init| ensures UniqueNames(init[i].components) {
          assert init[i] == catalog[i];
        }
      }
      EntriesDistinct(init);
      var a, b := Entries(init), LibraryEntries(last);
      forall j, k | 0 <= j < k < |a + b| ensures (a + b)[j] != (a + b)[k] {
        if k >= |a| && j < |a| {
          assert a[j] in Entries(init);
          EntriesAreCatalogEntries(init, a[j]);
          var i, c :| 0 <= i < |init| && 0 <= c < |init[i].components|
            && a[j] == Match(init[i].name, init[i].components[c].name, init[i].components[c].details);
          assert catalog[i].name != catalog[|catalog| - 1].name;
        }
      }
    }
  }

  // ---------------------------------------------------------------------
  // Search

  /** The entry's name, lower-cased, includes the query, lower-cased. */
  predicate Matches(name: string, query: string) {
    Contains(Lower(name), Lower(query))
  }

  /** The entries whose names match, in their original order. */
  function Filter(ms: seq<Match>, query: string): seq<Match> {
    if ms == [] then []
    else
      var init, last := ms[..|ms| - 1], ms[|ms| - 1];
      Filter(init, query) + (if Matches(last.component, query) then [last] else [])
  }

  /** `searchComponents` as a value: the matching entries in catalog order. */
  function Search(catalog: seq<Library>, query: string): seq<Match> {
    Filter(Entries(catalog), query)
  }

  lemma FilterSnoc(ms: seq<Match>, m: Match, query: string)
    ensures Filter(ms + [m], query) == Filter(ms, query) + (if Matches(m.component, query) then [m] else [])
  {
    assert (ms + [m])[..|ms|] == ms;
  }

  /** The filter keeps exactly the matching entries. */
  lemma {:induction false} FilterMembers(ms: seq<Match>, query: string, m: Match)
    ensures m in Filter(ms, query) <==> m in ms && Matches(m.component, query)
  {
    if ms != [] {
      var init := ms[..|ms| - 1];
      FilterMembers(init, query, m);
      assert ms == init + [ms[|ms| - 1]];
    }
  }

  /** Where each kept entry came from: strictly increasing positions in `ms`. */
  function Positions(ms: seq<Match>, query: string): (idx: seq<nat>)
    ensures |idx| == |Filter(ms, query)|
    ensures forall k :: 0 <= k < |idx| ==> idx[k] < |ms| && ms[idx[k]] == Filter(ms, query)[k]
    ensures forall k, l :: 0 <= k < l < |idx| ==> idx[k] < idx[l]
  {
    if ms == [] then []
    else
      var init := Positions(ms[..|ms| - 1], query);
      if Matches(ms[|ms| - 1].component, query) then init + [|ms| - 1] else init
  }

  lemma FilterDistinct(ms: seq<Match>, query: string)
    requires Distinct(ms)
    ensures Distinct(Filter(ms, query))
  {
    var idx := Positions(ms, query);
    var r := Filter(ms, query);
    forall j, k | 0 <= j < k < |r| ensures r[j] != r[k] {
      assert ms[idx[j]] != ms[idx[k]];
    }
  }

  lemma {:induction false} FilterLength(ms: seq<Match>, query: string)
    ensures |Filter(ms, query)| <= |ms|
  {
    if ms != [] {
      FilterLength(ms[..|ms| - 1], query);
    }
  }

  lemma {:induction false} FilterEmptyQuery(ms: seq<Match>)
    ensures Filter(ms, "") == ms
  {
    if ms != [] {
      FilterEmptyQuery(ms[..|ms| - 1]);
      ContainsEmpty(Lower(ms[|ms| - 1].component));
    }
  }

  lemma {:induction false} FilterSameLowerQuery(ms: seq<Match>, q: string, r: string)
    requires Lower(q) == Lower(r)
    ensures Filter(ms, q) == Filter(ms, r)
  {
    if ms != [] {
      FilterSameLowerQuery(ms[..|ms| - 1], q, r);
    }
  }

  /** Soundness: every result is a catalog entry whose name matches. */
  lemma SearchSound(catalog: seq<Library>, query: string, m: Match)
    requires m in Search(catalog, query)
    ensures InCatalog(catalog, m) && Matches(m.component, query)
  {
    FilterMembers(Entries(catalog), query, m);
    EntriesAreCatalogEntries(catalog, m);
  }

  /** Completeness: every catalog entry whose name matches is a result. */
  lemma SearchComplete(catalog: seq<Library>, query: string, i: nat, j: nat)
    requires i < |catalog| && j < |catalog[i].components|
    requires Matches(catalog[i].components[j].name, query)
    ensures Match(catalog[i].name, catalog[i].components[j].name, catalog[i].components[j].details)
              in Search(catalog, query)
  {
    var m := Match(catalog[i].name, catalog[i].components[j].name, catalog[i].components[j].details);
    EntriesAreCatalogEntries(catalog, m);
    FilterMembers(Entries(catalog), query, m);
  }

  /** Ordering: the results sit at strictly increasing positions of the
      catalog-order entry list, and never repeat. */
  lemma SearchOrdered(catalog: seq<Library>, query: string)
    requires WellFormed(catalog)
    ensures Distinct(Search(catalog, query))
    ensures var idx := Positions(Entries(catalog), query);
            |idx| == |Search(catalog, query)|
            && (forall k :: 0 <= k < |idx| ==> Entries(catalog)[idx[k]] == Search(catalog, query)[k])
            && (forall k, l :: 0 <= k < l < |idx| ==> idx[k] < idx[l])
  {
    EntriesDistinct(catalog);
    FilterDistinct(Entries(catalog), query);
  }

  /** The empty query returns every entry. */
  lemma SearchEmptyQuery(catalog: seq<Library>)
    ensures Search(catalog, "") == Entries(catalog)
  {
    FilterEmptyQuery(Entries(catalog));
  }

  /** No query returns more results than the total count. */
  lemma SearchBound(catalog: seq<Library>, query: string)
    ensures |Search(catalog, query)| <= TotalComponents(catalog)
  {
    FilterLength(Entries(catalog), query);
    EntriesCount(catalog);
  }

  /** Case-insensitivity: re-casing the query does not change the results. */
  lemma SearchCaseInsensitive(catalog: seq<Library>, query: string, recased: string)
    requires Recased(query, recased)
    ensures Search(catalog, query) == Search(catalog, recased)
  {
    RecasedLowerEqual(query, recased);
    FilterSameLowerQuery(Entries(catalog), query, recased);
  }

  /** Upper-casing the whole query leaves the results unchanged. */
  lemma SearchUpperCaseQuery(catalog: seq<Library>, query: string)
    ensures Search(catalog, query) == Search(catalog, Upper(query))
  {
    UpperIsRecased(query);
    SearchCaseInsensitive(catalog, query, Upper(query));
  }

  /** `searchComponents(query)` over `catalog` (the source reads its `ComponentCatalog` constant, `Catalog` here):
      walk the libraries and, inside each, the components, appending every
      entry whose name matches. */
  method SearchComponents(catalog: seq<Library>, query: string) returns (results: seq<Match>)
    ensures results == Search(catalog, query)
  {
    results := [];
    var needle := Lower(query);
    var i := 0;
    while i < |catalog|
      invariant 0 <= i <= |catalog|
      invariant results == Filter(Entries(catalog[..i]), query)
    {
      var lib := catalog[i];
      ghost var done := Entries(catalog[..i]);
      var j := 0;
      assert done + LibraryEntries(lib)[..0] == done;
      while j < |lib.components|
        invariant 0 <= j <= |lib.components|
        invariant results == Filter(done + LibraryEntries(lib)[..j], query)
      {
        var c := lib.components[j];
        FilterSnoc(done + LibraryEntries(lib)[..j], Match(lib.name, c.name, c.details), query);
        assert LibraryEntries(lib)[..j + 1] == LibraryEntries(lib)[..j] + [Match(lib.name, c.name, c.details)];
        assert done + LibraryEntries(lib)[..j + 1] == (done + LibraryEntries(lib)[..j]) + [Match(lib.name, c.name, c.details)];
        if Contains(Lower(c.name), needle) {
          results := results + [Match(lib.name, c.name, c.details)];
        }
        j := j + 1;
      }
      assert LibraryEntries(lib)[..j] == LibraryEntries(lib);
      assert catalog[..i + 1][..i] == catalog[..i];
      i := i + 1;
    }
    assert catalog[..i] == catalog;
  }

  /** `getTotalComponents()` on the catalog: the number of its entries. */
  function GetTotalComponents(): (n: nat)
    ensures n == |Entries(Catalog)|
  {
    EntriesCount(Catalog);
    TotalComponents(Catalog)
  }

  /** The catalog lists 108 components over its nine libraries. */
  lemma CatalogTotal()
    ensures GetTotalComponents() == 108
  {
    assert Catalog[..1][..0] == Catalog[..0];
    assert TotalComponents(Catalog[..1]) == 14;
    assert Catalog[..2][..1] == Catalog[..1];
    assert TotalComponents(Catalog[..2]) == 38;
    assert Catalog[..3][..2] == Catalog[..2];
    assert TotalComponents(Catalog[..3]) == 67;
    assert Catalog[..4][..3] == Catalog[..3];
    assert TotalComponents(Catalog[..4]) == 93;
    assert Catalog[..5][..4] == Catalog[..4];
    assert TotalComponents(Catalog[..5]) == 98;
    assert Catalog[..6][..5] == Catalog[..5];
    assert TotalComponents(Catalog[..6]) == 100;
    assert Catalog[..7][..6] == Catalog[..6];
    assert TotalComponents(Catalog[..7]) == 102;
    assert Catalog[..8][..7] == Catalog[..7];
    assert TotalComponents(Catalog[..8]) == 105;
    assert Catalog[..9][..8] == Catalog[..8];
    assert TotalComponents(Catalog[..9]) == 108;
    assert Catalog[..9] == Catalog;
  }

  // ---------------------------------------------------------------------
  // Template generation

  /** The props `generateComponent` reads; `kind` is the `type` prop. Each is
      a string or missing. */
  datatype Props = Props(
    title: Option<string>,
    kind: Option<string>,
    size: Option<string>,
    onPress: Option<string>,
    content: Option<string>)

  /** The generated code, or the TypeError thrown when `props` itself is
      missing (both templates read from `props` before the lookup). */
  datatype Generated = Code(text: string) | PropsTypeError

  const ImportOpen := "\nimport { "
  const ButtonHead := ImportOpen + "Button" + " } from 'react-native-elements';"
  const CardHead := ImportOpen + "Card" + ", CardItem, Text, Body } from 'native-base';"

  function ButtonTemplate(title: string, kind: string, size: string, onPress: string): string {
    ButtonHead + ("\n\nexport const MyButton = () => (\n  <Button\n    title=\"" + title
    + "\"\n    type=\"" + kind + "\"\n    size=\"" + size + "\"\n    onPress={" + onPress
    + "}>\n  />\n);")
  }

  function CardTemplate(title: string, content: string): string {
    CardHead + ("\n\nexport const MyCard = () => (\n  <Card>\n    <CardItem header>\n      <Text>"
    + title + "</Text>\n    </CardItem>\n    <CardItem>\n      <Body>\n        <Text>"
    + content + "</Text>\n      </Body>\n    </CardItem>\n  </Card>\n);")
  }

  function Fallback(kind: string, library: string): string {
    "// Component " + kind + " from " + library
  }

  /** `generateComponent(type, library, props)`: the template stored under
      the key `library.type`, filled from `props` with defaults for missing or
      empty props, or a one-line comment for any other key. */
  function GenerateComponent(kind: string, library: string, props: Option<Props>): (r: Generated)
    ensures props.None? <==> r == PropsTypeError
    ensures props.Some? && library == "rne" && kind == "Button" ==>
              r == Code(ButtonTemplate(Or(props.value.title, "Click Me"), Or(props.value.kind, "solid"),
                                       Or(props.value.size, "md"), Or(props.value.onPress, "() => {}")))
    ensures props.Some? && library == "nativeBase" && kind == "Card" ==>
              r == Code(CardTemplate(Or(props.value.title, "Card Title"),
                                     Or(props.value.content, "Card content goes here")))
  {
    match props
    case None => PropsTypeError
    case Some(p) =>
      var key := library + "." + kind;
      if key == "rne.Button" then
        Code(ButtonTemplate(Or(p.title, "Click Me"), Or(p.kind, "solid"), Or(p.size, "md"), Or(p.onPress, "() => {}")))
      else if key == "nativeBase.Card" then
        Code(CardTemplate(Or(p.title, "Card Title"), Or(p.content, "Card content goes here")))
      else
        Code(Fallback(kind, library))
  }

  /** The key `library.type` names a template exactly when the pair is that
      template's library and component. */
  lemma TemplateKey(library: string, kind: string, lib: string, name: string)
    requires '.' !in lib && '.' !in name
    ensures library + "." + kind == lib + "." + name <==> library == lib && kind == name
  {
    var key := library + "." + kind;
    if key == lib + "." + name {
      assert key[|library|] == '.';
      assert library == key[..|library|] == lib;
      assert kind == key[|library| + 1..] == name;
    }
  }

  lemma HeadsDiffer()
    ensures |ButtonHead| > 10 && |CardHead| > 10
    ensures ButtonHead[0] == CardHead[0] == '\n' && ButtonHead[10] == 'B' && CardHead[10] == 'C'
  {
    assert |ImportOpen| == 10 && ImportOpen[0] == '\n';
  }

  predicate StartsWith(s: string, prefix: string) {
    |prefix| <= |s| && s[..|prefix|] == prefix
  }

  /** Which template comes back is decided by the pair alone: the Button
      template exactly for `rne.Button`, the Card template exactly for
      `nativeBase.Card`, the one-line comment otherwise. */
  lemma GenerateComponentCases(kind: string, library: string, p: Props)
    ensures var code := GenerateComponent(kind, library, Some(p)).text;
            && (StartsWith(code, ButtonHead) <==> library == "rne" && kind == "Button")
            && (StartsWith(code, CardHead) <==> library == "nativeBase" && kind == "Card")
            && (code == Fallback(kind, library) <==>
                  !(library == "rne" && kind == "Button") && !(library == "nativeBase" && kind == "Card"))
  {
    TemplateKey(library, kind, "rne", "Button");
    TemplateKey(library, kind, "nativeBase", "Card");
    HeadsDiffer();
    var code := GenerateComponent(kind, library, Some(p)).text;
    var fallback := Fallback(kind, library);
    assert fallback[0] == '/';
    if library == "rne" && kind == "Button" {
      assert code[..|ButtonHead|] == ButtonHead;
      assert code[10] == 'B' && code[0] == '\n';
    } else if library == "nativeBase" && kind == "Card" {
      assert code[..|CardHead|] == CardHead;
      assert code[10] == 'C' && code[0] == '\n';
    } else {
      assert code == fallback;
    }
  }

}
