/**
 * The block picker: a fixed catalog of thirteen block kinds, filtered by a
 * case-insensitive search over label and description, and a click that asks the
 * document to add one new block of the chosen kind.
 *
 * The block factories are outside this model: an option records which factory it
 * calls, as a `BlockKind`.
 */
module BlocksPanel {
  import opened Strings

  datatype BlockKind =
    | Title | Text | Image | Video | Button | DynamicContent | Logo | Social | Html
    | Divider | Product | Navigation | Spacer

  datatype BlockOption = BlockOption(id: string, labelText: string, description: string, creates: BlockKind)

  const Catalog: seq<BlockOption> := [
    BlockOption("title", "Title", "Large heading text", Title),
    BlockOption("text", "Text", "Body text content", Text),
    BlockOption("image", "Image", "Image element", Image),
    BlockOption("video", "Video", "Video player", Video),
    BlockOption("button", "Button", "Clickable button", Button),
    BlockOption("dynamicContent", "Dynamic content", "Variable field", DynamicContent),
    BlockOption("logo", "Logo", "Logo image", Logo),
    BlockOption("social", "Social", "Social media links", Social),
    BlockOption("html", "HTML", "Custom HTML", Html),
    BlockOption("divider", "Divider", "Horizontal line", Divider),
    BlockOption("product", "Product", "Product card", Product),
    BlockOption("navigation", "Navigation", "Menu links", Navigation),
    BlockOption("spacer", "Spacer", "Vertical space", Spacer)
  ]

  /** The filter's test for one option. */
  predicate Matches(o: BlockOption, query: string) {
    Contains(Lower(o.labelText), Lower(query)) || Contains(Lower(o.description), Lower(query))
  }

  /** `blockOptions.filter(...)` */
  function Filtered(options: seq<BlockOption>, query: string): (r: seq<BlockOption>)
    ensures |r| <= |options|
    ensures forall o :: o in r ==> o in options && Matches(o, query)
  {
    if options == [] then []
    else if Matches(options[0], query) then [options[0]] + Filtered(options[1..], query)
    else Filtered(options[1..], query)
  }

  /** `a` can be obtained from `b` by deleting elements: same elements, same relative order. */
  predicate IsSubsequence<T(==)>(a: seq<T>, b: seq<T>)
    decreases |b|
  {
    a == [] || (b != [] && ((a[0] == b[0] && IsSubsequence(a[1..], b[1..])) || IsSubsequence(a, b[1..])))
  }

  /** An option is kept exactly when it matches. */
  lemma {:induction false} FilteredMembership(options: seq<BlockOption>, query: string, o: BlockOption)
    ensures o in Filtered(options, query) <==> o in options && Matches(o, query)
  {
    if options != [] {
      FilteredMembership(options[1..], query, o);
      assert o in options <==> o == options[0] || o in options[1..];
    }
  }

  /** The result lists the kept options in catalog order. */
  lemma {:induction false} FilteredIsSubsequence(options: seq<BlockOption>, query: string)
    ensures IsSubsequence(Filtered(options, query), options)
  {
    if options != [] {
      FilteredIsSubsequence(options[1..], query);
      var rest := Filtered(options[1..], query);
      if Matches(options[0], query) {
        assert Filtered(options, query) == [options[0]] + rest;
      }
    }
  }

  /** The empty query keeps every option. */
  lemma {:induction false} EmptyQueryKeepsAll(options: seq<BlockOption>)
    ensures Filtered(options, "") == options
  {
    if options != [] {
      assert OccursAt(Lower(options[0].labelText), Lower(""), 0);
      EmptyQueryKeepsAll(options[1..]);
    }
  }

  /** Queries equal up to ASCII case select the same options. */
  lemma {:induction false} CaseInsensitive(options: seq<BlockOption>, q1: string, q2: string)
    requires Lower(q1) == Lower(q2)
    ensures Filtered(options, q1) == Filtered(options, q2)
  {
    if options != [] {
      CaseInsensitive(options[1..], q1, q2);
    }
  }

  /** An option matching a query also matches every prefix of it. */
  lemma MatchesPrefix(o: BlockOption, query: string, more: string)
    requires Matches(o, query + more)
    ensures Matches(o, query)
  {
    LowerAppend(query, more);
    var lq := Lower(query + more);
    assert OccursAt(lq, Lower(query), 0);
    if Contains(Lower(o.labelText), lq) {
      ContainsTransitive(Lower(o.labelText), lq, Lower(query));
    } else {
      ContainsTransitive(Lower(o.description), lq, Lower(query));
    }
  }

  /** Typing more never brings an option back: the longer query's result is within the shorter one's. */
  lemma {:induction false} ExtendingQueryNarrows(options: seq<BlockOption>, query: string, more: string)
    ensures IsSubsequence(Filtered(options, query + more), Filtered(options, query))
  {
    if options != [] {
      ExtendingQueryNarrows(options[1..], query, more);
      var longer := Filtered(options[1..], query + more);
      var shorter := Filtered(options[1..], query);
      if Matches(options[0], query + more) {
        MatchesPrefix(options[0], query, more);
        assert Filtered(options, query + more) == [options[0]] + longer;
        assert Filtered(options, query) == [options[0]] + shorter;
      } else if Matches(options[0], query) {
        SubsequenceOfTail(longer, options[0], shorter);
      }
    }
  }

  lemma {:induction false} SubsequenceOfTail<T>(a: seq<T>, x: T, b: seq<T>)
    requires IsSubsequence(a, b)
    ensures IsSubsequence(a, [x] + b)
  {
    assert ([x] + b)[1..] == b;
  }

  /** The catalog has thirteen options with pairwise distinct ids. */
  lemma CatalogIdsDistinct()
    ensures |Catalog| == 13
    ensures forall i, j :: 0 <= i < j < |Catalog| ==> Catalog[i].id != Catalog[j].id
  {
  }

  /** `handleBlockClick`: one `onAddBlock` call, with a new block of the option's kind. */
  function Click(added: seq<BlockKind>, option: BlockOption): (r: seq<BlockKind>)
    ensures |r| == |added| + 1 && r[..|added|] == added && r[|added|] == option.creates
  {
    added + [option.creates]
  }

  /** Clicking any shown option adds exactly one block, of a kind the catalog offers. */
  lemma ClickAddsOneCatalogBlock(added: seq<BlockKind>, query: string, k: nat)
    requires k < |Filtered(Catalog, query)|
    ensures var r := Click(added, Filtered(Catalog, query)[k]);
      |r| == |added| + 1 && exists o :: o in Catalog && r[|added|] == o.creates
  {
    var o := Filtered(Catalog, query)[k];
    assert o in Filtered(Catalog, query);
  }
}
