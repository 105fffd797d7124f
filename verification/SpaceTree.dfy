/** Reading a tree of spaces, callouts and contributions into documents: one per non-empty
    content, in preorder, each placed under its nearest enclosing subspace and callout.

    Absent identifiers, names and texts are "".  Stripping markup, cleaning a name and the content
    key are any functions; a link carries the text its body would yield, "" for none. */
module SpaceTree {
  import opened Wrappers

  datatype Post = Post(id: string, title: string, text: string)

  datatype Link = Link(id: string, uri: string, title: string, description: string, body: string)

  /** A whiteboard has the shape of a post. */
  datatype Contribution = Contribution(post: Option<Post>, whiteboard: Option<Post>, link: Option<Link>)

  datatype Callout = Callout(id: string, name: string, description: string, contributions: seq<Contribution>)

  datatype Space = Space(id: string, name: string, description: string, callouts: seq<Callout>, subspaces: seq<Space>)

  datatype Kind = SpaceKind | SubspaceKind | KnowledgeKind | CalloutKind | PostKind | WhiteboardKind | LinkKind

  datatype Position =
    Position(spaceId: string, spaceName: string, subspaceId: string, subspaceName: string, calloutId: string, depth: nat)
  {
    function ForNode(id: string, name: string, depth: nat): Position {
      if depth == 0 then this.(spaceId := id, spaceName := name, depth := 0)
      else this.(subspaceId := id, subspaceName := name, depth := depth)
    }

    function ForCallout(id: string): Position { this.(calloutId := id) }

    function ForContribution(): Position { this.(depth := CONTRIBUTION_DEPTH) }
  }

  const NOWHERE := Position("", "", "", "", "", 0)

  const CONTRIBUTION_DEPTH := 3

  datatype Document = Document(content: string, id: string, kind: Kind, title: string, position: Position)

  datatype Texts = Texts(strip: string -> string, cleanName: string -> string, key: string -> string)

  // ----- where things are

  /** A place in the tree: the spaces from the root down, and the callout within the last. */
  datatype Place = Place(path: seq<Space>, callout: Option<Callout>, contribution: bool)

  /** Each space is listed under the one before it, and all have an identifier; so has the callout,
      which belongs to the last of them. */
  ghost predicate InTree(root: Space, place: Place) {
    && place.path != [] && place.path[0] == root
    && (forall k :: 0 <= k < |place.path| ==> place.path[k].id != "")
    && (forall k, l :: 0 <= k && l == k + 1 && l < |place.path| ==> place.path[l] in place.path[k].subspaces)
    && (place.callout.Some? ==> place.callout.value in place.path[|place.path| - 1].callouts && place.callout.value.id != "")
    && (place.contribution ==> place.callout.Some?)
  }

  /** Root identity, nearest subspace, callout, and the tier of the owner or of contributions. */
  function PositionOf(texts: Texts, place: Place): Position {
    if place.path == [] then NOWHERE
    else
      var last := |place.path| - 1;
      Position(place.path[0].id, texts.cleanName(place.path[0].name),
               if last == 0 then "" else place.path[last].id,
               if last == 0 then "" else texts.cleanName(place.path[last].name),
               if place.callout.Some? then place.callout.value.id else "",
               if place.contribution then 3 else last)
  }

  // ----- what the tree holds, in preorder

  /** A text to be emitted unless it is empty or a repetition. */
  datatype Draft = Draft(content: string, id: string, kind: Kind, title: string, place: Place)

  function Paragraphs(parts: seq<string>): string {
    if parts == [] then ""
    else
      var before, part := Paragraphs(parts[..|parts| - 1]), parts[|parts| - 1];
      if part == "" then before else if before == "" then part else before + "\n\n" + part
  }

  /** The paragraphs that are not empty, a blank line between any two. */
  lemma {:induction false} ParagraphsAppend(a: seq<string>, b: seq<string>)
    ensures Paragraphs(a + b) == if Paragraphs(a) == "" then Paragraphs(b)
                                 else if Paragraphs(b) == "" then Paragraphs(a)
                                 else Paragraphs(a) + "\n\n" + Paragraphs(b)
    ensures |a| == 1 ==> Paragraphs(a) == a[0]
  {
    if |a| == 1 { assert Paragraphs(a[..0]) == ""; }
    if b == [] {
      assert a + b == a;
    } else {
      var n := |b| - 1;
      assert (a + b)[..|a + b| - 1] == a + b[..n];
      ParagraphsAppend(a, b[..n]);
      assert Paragraphs(a) + "\n\n" + Paragraphs(b[..n]) + "\n\n" + b[n] == Paragraphs(a) + "\n\n" + (Paragraphs(b[..n]) + "\n\n" + b[n]);
    }
  }

  function Heading(title: string): string { if title == "" then "" else "# " + title }

  const SHORT_DESCRIPTION := 400

  function Shortened(text: string): string { if |text| <= SHORT_DESCRIPTION then text else text[..SHORT_DESCRIPTION] }

  function Context(texts: Texts, callout: Callout): string {
    Paragraphs([callout.name, if callout.description == "" then "" else Shortened(texts.strip(callout.description))])
  }

  /** A callout's contributions are introduced by its name and the start of its description. */
  lemma ContextReads(texts: Texts, callout: Callout)
    ensures callout.description == "" ==> Context(texts, callout) == callout.name
    ensures callout.description != "" ==>
              var stripped := texts.strip(callout.description);
              var short := if |stripped| > 400 then stripped[..400] else stripped;
              Context(texts, callout) == if callout.name == "" then short else if short == "" then callout.name
                                         else callout.name + "\n\n" + short
  {
    var short := if callout.description == "" then "" else Shortened(texts.strip(callout.description));
    ParagraphsAppend([callout.name], [short]);
    ParagraphsAppend([short], []);
    assert [callout.name] + [short] == [callout.name, short];
  }

  function PostDrafts(texts: Texts, post: Option<Post>, kind: Kind, place: Place): seq<Draft>
    requires place.callout.Some?
  {
    if post.None? || post.value.text == "" then []
    else
      [Draft(Paragraphs([Context(texts, place.callout.value), Heading(post.value.title), post.value.text]),
             post.value.id, kind, post.value.title, place)]
  }

  function LinkDrafts(texts: Texts, link: Option<Link>, place: Place): seq<Draft>
    requires place.callout.Some?
  {
    if link.None? || (link.value.uri == "" && link.value.title == "" && link.value.description == "") then []
    else
      var l := link.value;
      var body := if l.uri == "" then "" else l.body;
      var content :=
        if body != "" then Paragraphs([Heading(l.title), l.description, body])
        else Paragraphs([Context(texts, place.callout.value), Heading(l.title), l.description,
                         if l.uri == "" then "" else "URL: " + l.uri]);
      [Draft(content, l.id, LinkKind, l.title, place)]
  }

  function ContributionDrafts(texts: Texts, contribution: Contribution, place: Place): seq<Draft>
    requires place.callout.Some?
  {
    PostDrafts(texts, contribution.post, PostKind, place)
    + PostDrafts(texts, contribution.whiteboard, WhiteboardKind, place)
    + LinkDrafts(texts, contribution.link, place)
  }

  function ContributionsDrafts(texts: Texts, contributions: seq<Contribution>, place: Place): seq<Draft>
    requires place.callout.Some?
  {
    if contributions == [] then []
    else
      var n := |contributions| - 1;
      ContributionsDrafts(texts, contributions[..n], place) + ContributionDrafts(texts, contributions[n], place)
  }

  function OwnDraft(name: string, description: string, id: string, kind: Kind, place: Place): seq<Draft> {
    if description == "" then [] else [Draft(name + "\n\n" + description, id, kind, name, place)]
  }

  function CalloutDrafts(texts: Texts, callout: Callout, path: seq<Space>): seq<Draft> {
    if callout.id == "" then []
    else
      OwnDraft(callout.name, callout.description, callout.id, CalloutKind, Place(path, Some(callout), false))
      + ContributionsDrafts(texts, callout.contributions, Place(path, Some(callout), true))
  }

  function CalloutsDrafts(texts: Texts, callouts: seq<Callout>, path: seq<Space>): seq<Draft> {
    if callouts == [] then []
    else
      CalloutsDrafts(texts, callouts[..|callouts| - 1], path) + CalloutDrafts(texts, callouts[|callouts| - 1], path)
  }

  function KindOf(depth: nat, top: Option<Kind>): Kind {
    if depth > 0 then SubspaceKind else if top.Some? then top.value else SpaceKind
  }

  function SpaceDrafts(texts: Texts, space: Space, above: seq<Space>, top: Option<Kind>): seq<Draft>
    decreases space
  {
    if space.id == "" then []
    else
      var path := above + [space];
      OwnDraft(space.name, space.description, space.id, KindOf(|above|, top), Place(path, None, false))
      + CalloutsDrafts(texts, space.callouts, path)
      + SubspacesDrafts(texts, space.subspaces, path)
  }

  function SubspacesDrafts(texts: Texts, subspaces: seq<Space>, path: seq<Space>): seq<Draft>
    decreases subspaces
  {
    if subspaces == [] then []
    else
      var n := |subspaces| - 1;
      SubspacesDrafts(texts, subspaces[..n], path) + SpaceDrafts(texts, subspaces[n], path, None)
  }

  // ----- emitting

  datatype Output = Output(documents: seq<Document>, seen: set<string>)

  function ToDocument(texts: Texts, draft: Draft): Document {
    Document(texts.strip(draft.content), draft.id, draft.kind,
             if texts.strip(draft.title) != "" then texts.strip(draft.title) else draft.title, PositionOf(texts, draft.place))
  }

  function KeyOf(texts: Texts, draft: Draft): string { texts.key(texts.strip(draft.content)) }

  function Emit(texts: Texts, output: Output, draft: Draft): Output {
    if texts.strip(draft.content) == "" || KeyOf(texts, draft) in output.seen then output
    else Output(output.documents + [ToDocument(texts, draft)], output.seen + {KeyOf(texts, draft)})
  }

  function EmitAll(texts: Texts, output: Output, drafts: seq<Draft>): Output {
    if drafts == [] then output
    else Emit(texts, EmitAll(texts, output, drafts[..|drafts| - 1]), drafts[|drafts| - 1])
  }

  lemma {:induction false} EmitPlus(texts: Texts, output: Output, a: seq<Draft>, b: seq<Draft>)
    ensures EmitAll(texts, output, a + b) == EmitAll(texts, EmitAll(texts, output, a), b)
  {
    if b == [] {
      assert a + b == a;
    } else {
      var n := |b| - 1;
      EmitPlus(texts, output, a, b[..n]);
      assert (a + b)[..|a + b| - 1] == a + b[..n];
    }
  }

  lemma EmitOne(texts: Texts, output: Output, draft: Draft)
    ensures EmitAll(texts, output, [draft]) == Emit(texts, output, draft)
  {
    assert [draft][..0] == [];
  }

  class Reader {
    const texts: Texts
    var documents: seq<Document>
    var seen: set<string>

    constructor (texts: Texts)
      ensures this.texts == texts && Emitted() == Output([], {})
    {
      this.texts := texts;
      documents, seen := [], {};
    }

    function Emitted(): Output
      reads this
    {
      Output(documents, seen)
    }

    /** Appends a document unless its stripped content is empty or already seen. */
    method AppendUnique(content: string, id: string, kind: Kind, title: string, position: Position, ghost place: Place)
      requires position == PositionOf(texts, place)
      modifies this
      ensures Emitted() == EmitAll(texts, old(Emitted()), [Draft(content, id, kind, title, place)])
    {
      EmitOne(texts, Emitted(), Draft(content, id, kind, title, place));
      var cleaned := texts.strip(content);
      if cleaned == "" { return; }
      var key := texts.key(cleaned);
      if key in seen { return; }
      seen := seen + {key};
      var stripped := texts.strip(title);
      documents := documents + [Document(cleaned, id, kind, if stripped != "" then stripped else title, position)];
    }

    method ProcessPost(post: Option<Post>, kind: Kind, context: string, position: Position, ghost place: Place)
      requires place.callout.Some? && context == Context(texts, place.callout.value) && position == PositionOf(texts, place)
      modifies this
      ensures Emitted() == EmitAll(texts, old(Emitted()), PostDrafts(texts, post, kind, place))
    {
      if post.Some? && post.value.text != "" {
        var content := Paragraphs([context, Heading(post.value.title), post.value.text]);
        AppendUnique(content, post.value.id, kind, post.value.title, position, place);
      }
    }

    method ProcessLink(link: Option<Link>, context: string, position: Position, ghost place: Place)
      requires place.callout.Some? && context == Context(texts, place.callout.value) && position == PositionOf(texts, place)
      modifies this
      ensures Emitted() == EmitAll(texts, old(Emitted()), LinkDrafts(texts, link, place))
    {
      if link.None? { return; }
      var l := link.value;
      if l.uri == "" && l.title == "" && l.description == "" { return; }
      var body := if l.uri == "" then "" else l.body;
      var content: string;
      if body != "" {
        content := Paragraphs([Heading(l.title), l.description, body]);
      } else {
        content := Paragraphs([context, Heading(l.title), l.description, if l.uri == "" then "" else "URL: " + l.uri]);
      }
      AppendUnique(content, l.id, LinkKind, l.title, position, place);
    }

    method ProcessContribution(contribution: Contribution, context: string, position: Position, ghost place: Place)
      requires place.callout.Some? && context == Context(texts, place.callout.value) && position == PositionOf(texts, place)
      modifies this
      ensures Emitted() == EmitAll(texts, old(Emitted()), ContributionDrafts(texts, contribution, place))
    {
      ghost var posts := PostDrafts(texts, contribution.post, PostKind, place);
      ghost var boards := PostDrafts(texts, contribution.whiteboard, WhiteboardKind, place);
      EmitPlus(texts, Emitted(), posts, boards);
      EmitPlus(texts, Emitted(), posts + boards, LinkDrafts(texts, contribution.link, place));
      ProcessPost(contribution.post, PostKind, context, position, place);
      ProcessPost(contribution.whiteboard, WhiteboardKind, context, position, place);
      ProcessLink(contribution.link, context, position, place);
    }

    method AppendOwn(name: string, description: string, id: string, kind: Kind, position: Position, ghost place: Place)
      requires position == PositionOf(texts, place)
      modifies this
      ensures Emitted() == EmitAll(texts, old(Emitted()), OwnDraft(name, description, id, kind, place))
    {
      if description != "" { AppendUnique(name + "\n\n" + description, id, kind, name, position, place); }
    }

    method ProcessContributions(contributions: seq<Contribution>, context: string, position: Position, ghost place: Place)
      requires place.callout.Some? && context == Context(texts, place.callout.value) && position == PositionOf(texts, place)
      modifies this
      ensures Emitted() == EmitAll(texts, old(Emitted()), ContributionsDrafts(texts, contributions, place))
    {
      ghost var start := Emitted();
      for i := 0 to |contributions|
        invariant Emitted() == EmitAll(texts, start, ContributionsDrafts(texts, contributions[..i], place))
      {
        assert contributions[..i + 1][..i] == contributions[..i];
        EmitPlus(texts, start, ContributionsDrafts(texts, contributions[..i], place), ContributionDrafts(texts, contributions[i], place));
        ProcessContribution(contributions[i], context, position, place);
      }
      TakeAll(contributions);
    }

    method ProcessCallout(callout: Callout, position: Position, ghost path: seq<Space>)
      requires path != [] && position == PositionOf(texts, Place(path, None, false))
      modifies this
      ensures Emitted() == EmitAll(texts, old(Emitted()), CalloutDrafts(texts, callout, path))
    {
      if callout.id == "" { return; }
      var calloutPosition := position.ForCallout(callout.id);
      ghost var place, leaf := Place(path, Some(callout), false), Place(path, Some(callout), true);
      EmitPlus(texts, Emitted(), OwnDraft(callout.name, callout.description, callout.id, CalloutKind, place),
               ContributionsDrafts(texts, callout.contributions, leaf));
      AppendOwn(callout.name, callout.description, callout.id, CalloutKind, calloutPosition, place);
      ProcessContributions(callout.contributions, Context(texts, callout), calloutPosition.ForContribution(), leaf);
    }

    method ProcessCallouts(callouts: seq<Callout>, position: Position, ghost path: seq<Space>)
      requires path != [] && position == PositionOf(texts, Place(path, None, false))
      modifies this
      ensures Emitted() == EmitAll(texts, old(Emitted()), CalloutsDrafts(texts, callouts, path))
    {
      ghost var start := Emitted();
      for i := 0 to |callouts|
        invariant Emitted() == EmitAll(texts, start, CalloutsDrafts(texts, callouts[..i], path))
      {
        assert callouts[..i + 1][..i] == callouts[..i];
        EmitPlus(texts, start, CalloutsDrafts(texts, callouts[..i], path), CalloutDrafts(texts, callouts[i], path));
        ProcessCallout(callouts[i], position, path);
      }
      TakeAll(callouts);
    }

    method ProcessSpace(space: Space, depth: nat, top: Option<Kind>, position: Position, ghost above: seq<Space>)
      requires depth == |above| && position == PositionOf(texts, Place(above, None, false))
      modifies this
      ensures Emitted() == EmitAll(texts, old(Emitted()), SpaceDrafts(texts, space, above, top))
      decreases space
    {
      if space.id == "" { return; }
      ghost var path := above + [space];
      var nodePosition := position.ForNode(space.id, texts.cleanName(space.name), depth);
      Descend(texts, space, above);
      ghost var own := OwnDraft(space.name, space.description, space.id, KindOf(depth, top), Place(path, None, false));
      EmitPlus(texts, Emitted(), own, CalloutsDrafts(texts, space.callouts, path));
      EmitPlus(texts, Emitted(), own + CalloutsDrafts(texts, space.callouts, path), SubspacesDrafts(texts, space.subspaces, path));
      AppendOwn(space.name, space.description, space.id, KindOf(depth, top), nodePosition, Place(path, None, false));
      ProcessCallouts(space.callouts, nodePosition, path);
      ProcessSubspaces(space.subspaces, depth + 1, nodePosition, path);
    }

    method ProcessSubspaces(subspaces: seq<Space>, depth: nat, position: Position, ghost path: seq<Space>)
      requires depth == |path| && position == PositionOf(texts, Place(path, None, false))
      modifies this
      ensures Emitted() == EmitAll(texts, old(Emitted()), SubspacesDrafts(texts, subspaces, path))
      decreases subspaces
    {
      ghost var start := Emitted();
      for i := 0 to |subspaces|
        invariant Emitted() == EmitAll(texts, start, SubspacesDrafts(texts, subspaces[..i], path))
      {
        assert subspaces[..i + 1][..i] == subspaces[..i];
        EmitPlus(texts, start, SubspacesDrafts(texts, subspaces[..i], path), SpaceDrafts(texts, subspaces[i], path, None));
        ProcessSpace(subspaces[i], depth, None, position, path);
      }
      TakeAll(subspaces);
    }
  }

  /** Descending to a node keeps the position that of its path. */
  lemma Descend(texts: Texts, space: Space, above: seq<Space>)
    ensures PositionOf(texts, Place(above, None, false)).ForNode(space.id, texts.cleanName(space.name), |above|)
         == PositionOf(texts, Place(above + [space], None, false))
  {}

  /** Reads a whole tree; `top` names the root's kind when it is not a space. */
  method ReadTree(texts: Texts, root: Space, top: Option<Kind>) returns (documents: seq<Document>)
    ensures documents == EmitAll(texts, Output([], {}), SpaceDrafts(texts, root, [], top)).documents
  {
    var reader := new Reader(texts);
    reader.ProcessSpace(root, 0, top, NOWHERE, []);
    documents := reader.documents;
  }

  // ----- which drafts become documents

  /** Not empty, and no earlier non-empty draft has the same content key. */
  ghost predicate IsNew(texts: Texts, drafts: seq<Draft>, i: nat)
    requires i < |drafts|
  {
    && texts.strip(drafts[i].content) != ""
    && forall j :: 0 <= j < i && texts.strip(drafts[j].content) != "" ==> KeyOf(texts, drafts[j]) != KeyOf(texts, drafts[i])
  }

  ghost function NewDrafts(texts: Texts, drafts: seq<Draft>, n: nat): seq<Draft>
    requires n <= |drafts|
  {
    if n == 0 then [] else NewDrafts(texts, drafts, n - 1) + if IsNew(texts, drafts, n - 1) then [drafts[n - 1]] else []
  }

  function ToDocuments(texts: Texts, drafts: seq<Draft>): (r: seq<Document>)
    ensures |r| == |drafts|
  {
    seq(|drafts|, i requires 0 <= i < |drafts| => ToDocument(texts, drafts[i]))
  }

  ghost predicate SeenSoFar(texts: Texts, drafts: seq<Draft>, n: nat, seen: set<string>)
    requires n <= |drafts|
  {
    forall key :: key in seen <==> exists i :: 0 <= i < n && texts.strip(drafts[i].content) != "" && KeyOf(texts, drafts[i]) == key
  }

  /** Emitting lists the drafts with later repetitions of a content key, and empty ones, dropped. */
  lemma {:induction false} EmitDropsRepetitions(texts: Texts, drafts: seq<Draft>, n: nat)
    requires n <= |drafts|
    ensures EmitAll(texts, Output([], {}), drafts[..n]).documents == ToDocuments(texts, NewDrafts(texts, drafts, n))
    ensures SeenSoFar(texts, drafts, n, EmitAll(texts, Output([], {}), drafts[..n]).seen)
  {
    if n > 0 {
      EmitDropsRepetitions(texts, drafts, n - 1);
      assert drafts[..n][..n - 1] == drafts[..n - 1];
      SeenStep(texts, drafts, n - 1, EmitAll(texts, Output([], {}), drafts[..n - 1]));
    }
  }

  lemma SeenStep(texts: Texts, drafts: seq<Draft>, n: nat, output: Output)
    requires n < |drafts| && SeenSoFar(texts, drafts, n, output.seen)
    ensures IsNew(texts, drafts, n) <==> texts.strip(drafts[n].content) != "" && KeyOf(texts, drafts[n]) !in output.seen
    ensures SeenSoFar(texts, drafts, n + 1, Emit(texts, output, drafts[n]).seen)
  {
    var seen := Emit(texts, output, drafts[n]).seen;
    forall key ensures key in seen <==> exists i :: 0 <= i < n + 1 && texts.strip(drafts[i].content) != "" && KeyOf(texts, drafts[i]) == key {
      if key in seen && key !in output.seen { assert KeyOf(texts, drafts[n]) == key; }
    }
  }

  lemma {:induction false} NewDraftsAreNew(texts: Texts, drafts: seq<Draft>, n: nat, a: nat) returns (i: nat)
    requires n <= |drafts| && a < |NewDrafts(texts, drafts, n)|
    ensures i < n && drafts[i] == NewDrafts(texts, drafts, n)[a] && IsNew(texts, drafts, i)
  {
    if a < |NewDrafts(texts, drafts, n - 1)| { i := NewDraftsAreNew(texts, drafts, n - 1, a); } else { i := n - 1; }
  }

  /** No two documents share a content key. */
  lemma {:induction false} KeysDiffer(texts: Texts, drafts: seq<Draft>, n: nat, a: nat, b: nat)
    requires n <= |drafts| && a < b < |NewDrafts(texts, drafts, n)|
    ensures KeyOf(texts, NewDrafts(texts, drafts, n)[a]) != KeyOf(texts, NewDrafts(texts, drafts, n)[b])
  {
    if b < |NewDrafts(texts, drafts, n - 1)| {
      KeysDiffer(texts, drafts, n - 1, a, b);
    } else {
      var i := NewDraftsAreNew(texts, drafts, n - 1, a);
    }
  }

  /** Every non-empty content is represented by a document with its key. */
  lemma {:induction false} KeyKept(texts: Texts, drafts: seq<Draft>, n: nat, i: nat) returns (a: nat)
    requires i < n <= |drafts| && texts.strip(drafts[i].content) != ""
    ensures a < |NewDrafts(texts, drafts, n)| && KeyOf(texts, NewDrafts(texts, drafts, n)[a]) == KeyOf(texts, drafts[i])
    decreases n
  {
    if i < n - 1 {
      a := KeyKept(texts, drafts, n - 1, i);
    } else if IsNew(texts, drafts, i) {
      a := |NewDrafts(texts, drafts, n - 1)|;
    } else {
      var j :| 0 <= j < i && texts.strip(drafts[j].content) != "" && KeyOf(texts, drafts[j]) == KeyOf(texts, drafts[i]);
      a := KeyKept(texts, drafts, n - 1, j);
    }
  }

  // ----- every draft is where it says

  ghost predicate AllInTree(root: Space, drafts: seq<Draft>) { forall i :: 0 <= i < |drafts| ==> InTree(root, drafts[i].place) }

  lemma {:induction false} ContributionsInTree(texts: Texts, root: Space, contributions: seq<Contribution>, place: Place)
    requires InTree(root, place) && place.callout.Some?
    ensures AllInTree(root, ContributionsDrafts(texts, contributions, place))
  {
    if contributions != [] { ContributionsInTree(texts, root, contributions[..|contributions| - 1], place); }
  }

  lemma {:induction false} CalloutsInTree(texts: Texts, root: Space, callouts: seq<Callout>, path: seq<Space>)
    requires InTree(root, Place(path, None, false)) && callouts <= path[|path| - 1].callouts
    ensures AllInTree(root, CalloutsDrafts(texts, callouts, path))
  {
    if callouts != [] {
      var callout := callouts[|callouts| - 1];
      assert path[|path| - 1].callouts[|callouts| - 1] == callout;
      CalloutsInTree(texts, root, callouts[..|callouts| - 1], path);
      CalloutInTree(texts, root, callout, path);
    }
  }

  lemma CalloutInTree(texts: Texts, root: Space, callout: Callout, path: seq<Space>)
    requires InTree(root, Place(path, None, false)) && callout in path[|path| - 1].callouts
    ensures AllInTree(root, CalloutDrafts(texts, callout, path))
  {
    if callout.id != "" { ContributionsInTree(texts, root, callout.contributions, Place(path, Some(callout), true)); }
  }

  lemma StepDown(root: Space, above: seq<Space>, space: Space)
    requires above == [] ==> space == root
    requires above != [] ==> InTree(root, Place(above, None, false)) && space in above[|above| - 1].subspaces
    requires space.id != ""
    ensures InTree(root, Place(above + [space], None, false))
  {}

  lemma {:induction false} SpaceInTree(texts: Texts, root: Space, space: Space, above: seq<Space>, top: Option<Kind>)
    requires above == [] ==> space == root
    requires above != [] ==> InTree(root, Place(above, None, false)) && space in above[|above| - 1].subspaces
    ensures AllInTree(root, SpaceDrafts(texts, space, above, top))
    decreases space
  {
    if space.id != "" {
      var path := above + [space];
      StepDown(root, above, space);
      CalloutsInTree(texts, root, space.callouts, path);
      SubspacesInTree(texts, root, space.subspaces, path);
    }
  }

  lemma {:induction false} SubspacesInTree(texts: Texts, root: Space, subspaces: seq<Space>, path: seq<Space>)
    requires InTree(root, Place(path, None, false)) && subspaces <= path[|path| - 1].subspaces
    ensures AllInTree(root, SubspacesDrafts(texts, subspaces, path))
    decreases subspaces
  {
    if subspaces != [] {
      var n := |subspaces| - 1;
      assert path[|path| - 1].subspaces[n] == subspaces[n];
      SubspacesInTree(texts, root, subspaces[..n], path);
      SpaceInTree(texts, root, subspaces[n], path, None);
    }
  }

  // ----- nothing is missing

  /** The space a path leads to, and what is drafted for it alone. */
  function Node(path: seq<Space>): Space
    requires path != []
  {
    path[|path| - 1]
  }

  function NodeDrafts(texts: Texts, path: seq<Space>, top: Option<Kind>): seq<Draft>
    requires path != []
  {
    OwnDraft(Node(path).name, Node(path).description, Node(path).id, KindOf(|path| - 1, top), Place(path, None, false))
    + CalloutsDrafts(texts, Node(path).callouts, path)
  }

  /** What is drafted for a space reached through identified spaces is drafted for the tree. */
  lemma {:induction false} NodeIncluded(texts: Texts, space: Space, above: seq<Space>, top: Option<Kind>, below: seq<Space>, d: Draft)
    requires InTree(space, Place([space] + below, None, false))
    requires d in NodeDrafts(texts, above + [space] + below, if below == [] then top else None)
    ensures d in SpaceDrafts(texts, space, above, top)
    decreases |below|
  {
    var path := above + [space];
    assert ([space] + below)[0].id != "";
    if below == [] {
      assert path + below == path;
    } else {
      var next := below[0];
      StepInto(space, below);
      assert path + [next] + below[1..] == path + below;
      NodeIncluded(texts, next, path, None, below[1..], d);
      SubspaceIncluded(texts, space.subspaces, path, next, d);
    }
  }

  /** A draft of this kind, with this identifier, title and text, at this place. */
  ghost predicate Yields(drafts: seq<Draft>, kind: Kind, id: string, title: string, content: string, place: Place) {
    Draft(content, id, kind, title, place) in drafts
  }

  /** The root is of the kind it is read as, and every space below it a subspace. */
  predicate IsKindAt(kind: Kind, level: nat, top: Option<Kind>) {
    if level > 0 then kind.SubspaceKind? else kind == if top == None then SpaceKind else top.value
  }

  /** Every space reached through identified spaces is drafted if it has a description. */
  lemma SpaceDrafted(texts: Texts, root: Space, top: Option<Kind>, below: seq<Space>)
    requires InTree(root, Place([root] + below, None, false)) && Node([root] + below).description != ""
    ensures IsKindAt(KindOf(|below|, top), |below|, top)
    ensures var space := Node([root] + below);
      Yields(SpaceDrafts(texts, root, [], top), KindOf(|below|, top), space.id, space.name, space.name + "\n\n" + space.description,
             Place([root] + below, None, false))
  {
    var path, kind := [root] + below, if below == [] then top else None;
    assert [] + [root] + below == path;
    var d := OwnDraft(Node(path).name, Node(path).description, Node(path).id, KindOf(|below|, kind), Place(path, None, false))[0];
    assert d in NodeDrafts(texts, path, kind);
    NodeIncluded(texts, root, [], top, below, d);
  }

  lemma {:induction false} CalloutIncluded(texts: Texts, callouts: seq<Callout>, path: seq<Space>, callout: Callout, d: Draft)
    requires callout in callouts && d in CalloutDrafts(texts, callout, path)
    ensures d in CalloutsDrafts(texts, callouts, path)
    decreases |callouts|
  {
    var n := |callouts| - 1;
    assert callouts == callouts[..n] + [callouts[n]];
    if callout in callouts[..n] { CalloutIncluded(texts, callouts[..n], path, callout, d); }
  }

  /** What is drafted for a callout of such a space is drafted for the tree. */
  lemma CalloutReached(texts: Texts, root: Space, top: Option<Kind>, below: seq<Space>, callout: Callout, d: Draft)
    requires InTree(root, Place([root] + below, Some(callout), false)) && d in CalloutDrafts(texts, callout, [root] + below)
    ensures d in SpaceDrafts(texts, root, [], top)
  {
    var path, kind := [root] + below, if below == [] then top else None;
    assert [] + [root] + below == path;
    CalloutIncluded(texts, Node(path).callouts, path, callout, d);
    assert d in NodeDrafts(texts, path, kind);
    NodeIncluded(texts, root, [], top, below, d);
  }

  /** Every identified callout of such a space is drafted if it has a description. */
  lemma CalloutDrafted(texts: Texts, root: Space, top: Option<Kind>, below: seq<Space>, callout: Callout)
    requires InTree(root, Place([root] + below, Some(callout), false)) && callout.description != ""
    ensures Yields(SpaceDrafts(texts, root, [], top), CalloutKind, callout.id, callout.name,
                   callout.name + "\n\n" + callout.description, Place([root] + below, Some(callout), false))
  {
    var place := Place([root] + below, Some(callout), false);
    var d := OwnDraft(callout.name, callout.description, callout.id, CalloutKind, place)[0];
    assert d in CalloutDrafts(texts, callout, [root] + below);
    CalloutReached(texts, root, top, below, callout, d);
  }

  lemma {:induction false} ContributionIncluded(texts: Texts, contributions: seq<Contribution>, place: Place, contribution: Contribution, d: Draft)
    requires place.callout.Some? && contribution in contributions && d in ContributionDrafts(texts, contribution, place)
    ensures d in ContributionsDrafts(texts, contributions, place)
    decreases |contributions|
  {
    var n := |contributions| - 1;
    assert contributions == contributions[..n] + [contributions[n]];
    if contribution in contributions[..n] { ContributionIncluded(texts, contributions[..n], place, contribution, d); }
  }

  lemma ContributionReached(texts: Texts, root: Space, top: Option<Kind>, below: seq<Space>, callout: Callout, contribution: Contribution, d: Draft)
    requires InTree(root, Place([root] + below, Some(callout), true)) && contribution in callout.contributions
    requires d in ContributionDrafts(texts, contribution, Place([root] + below, Some(callout), true))
    ensures d in SpaceDrafts(texts, root, [], top)
  {
    ContributionIncluded(texts, callout.contributions, Place([root] + below, Some(callout), true), contribution, d);
    assert d in CalloutDrafts(texts, callout, [root] + below);
    CalloutReached(texts, root, top, below, callout, d);
  }

  /** A post under its callout's introduction and its own title. */
  function PostText(context: string, post: Post): string { Paragraphs([context, Heading(post.title), post.text]) }

  /** A link stands for the text behind it; without one it is introduced like a post and names its address. */
  function LinkText(context: string, link: Link): string {
    if link.uri != "" && link.body != "" then Paragraphs([Heading(link.title), link.description, link.body])
    else Paragraphs([context, Heading(link.title), link.description] + if link.uri == "" then [] else ["URL: " + link.uri])
  }

  /** With nothing missing: title and text follow the introduction, and a link's text comes without one. */
  lemma TextsRead(context: string, post: Post, link: Link)
    ensures context != "" && post.title != "" && post.text != "" ==>
              PostText(context, post) == context + "\n\n" + ("# " + post.title) + "\n\n" + post.text
    ensures link.uri != "" && link.body != "" ==> LinkText(context, link) == LinkText("", link)
    ensures link.uri != "" && link.body != "" && link.title != "" && link.description != "" ==>
              LinkText(context, link) == ("# " + link.title) + "\n\n" + link.description + "\n\n" + link.body
    ensures link.uri != "" && link.body == "" && context != "" && link.title != "" && link.description != "" ==>
              LinkText(context, link) == context + "\n\n" + ("# " + link.title) + "\n\n" + link.description + "\n\n" + ("URL: " + link.uri)
  {
    ThreeRead(context, Heading(post.title), post.text);
    ThreeRead(Heading(link.title), link.description, link.body);
    FourRead(context, Heading(link.title), link.description, "URL: " + link.uri);
  }

  lemma FourRead(a: string, b: string, c: string, d: string)
    ensures a != "" && b != "" && c != "" && d != "" ==> Paragraphs([a, b, c] + [d]) == a + "\n\n" + b + "\n\n" + c + "\n\n" + d
  {
    ThreeRead(a, b, c);
    ParagraphsAppend([a, b, c], [d]);
    ParagraphsAppend([d], []);
  }

  lemma ThreeRead(a: string, b: string, c: string)
    ensures a != "" && b != "" && c != "" ==> Paragraphs([a, b, c]) == a + "\n\n" + b + "\n\n" + c
  {
    ParagraphsAppend([a], [b]);
    ParagraphsAppend([a, b], [c]);
    ParagraphsAppend([b], []);
    ParagraphsAppend([c], []);
    assert [a] + [b] == [a, b] && [a, b] + [c] == [a, b, c];
  }

  ghost predicate HasText(post: Option<Post>) { post.Some? && post.value.text != "" }

  ghost predicate HasAny(link: Option<Link>) {
    link.Some? && (link.value.uri != "" || link.value.title != "" || link.value.description != "")
  }

  ghost predicate YieldsPost(drafts: seq<Draft>, kind: Kind, post: Post, context: string, place: Place) {
    Yields(drafts, kind, post.id, post.title, PostText(context, post), place)
  }

  ghost predicate YieldsLink(drafts: seq<Draft>, link: Link, context: string, place: Place) {
    Yields(drafts, LinkKind, link.id, link.title, LinkText(context, link), place)
  }

  lemma LinkReads(texts: Texts, link: Link, place: Place)
    requires place.callout.Some? && HasAny(Some(link))
    ensures LinkDrafts(texts, Some(link), place)
         == [Draft(LinkText(Context(texts, place.callout.value), link), link.id, LinkKind, link.title, place)]
  {
    var front := [Context(texts, place.callout.value), Heading(link.title), link.description];
    ParagraphsAppend(front, [""]);
    ParagraphsAppend([""], []);
    assert front + [""] == [front[0], front[1], front[2], ""] && front + [] == front;
    assert front + ["URL: " + link.uri] == [front[0], front[1], front[2], "URL: " + link.uri];
  }

  /** Every contribution to an identified callout of such a space is drafted: a post or whiteboard
      that has a text, and a link that has anything. */
  lemma ContributionDrafted(texts: Texts, root: Space, top: Option<Kind>, below: seq<Space>, callout: Callout, contribution: Contribution)
    requires InTree(root, Place([root] + below, Some(callout), true)) && contribution in callout.contributions
    ensures var drafts, place := SpaceDrafts(texts, root, [], top), Place([root] + below, Some(callout), true);
      && (HasText(contribution.post) ==> YieldsPost(drafts, PostKind, contribution.post.value, Context(texts, callout), place))
      && (HasText(contribution.whiteboard) ==> YieldsPost(drafts, WhiteboardKind, contribution.whiteboard.value, Context(texts, callout), place))
      && (HasAny(contribution.link) ==> YieldsLink(drafts, contribution.link.value, Context(texts, callout), place))
  {
    var place := Place([root] + below, Some(callout), true);
    if HasAny(contribution.link) { LinkReads(texts, contribution.link.value, place); }
    if HasText(contribution.post) {
      var d := PostDrafts(texts, contribution.post, PostKind, place)[0];
      ContributionReached(texts, root, top, below, callout, contribution, d);
    }
    if HasText(contribution.whiteboard) {
      var d := PostDrafts(texts, contribution.whiteboard, WhiteboardKind, place)[0];
      ContributionReached(texts, root, top, below, callout, contribution, d);
    }
    if HasAny(contribution.link) {
      var d := LinkDrafts(texts, contribution.link, place)[0];
      ContributionReached(texts, root, top, below, callout, contribution, d);
    }
  }

  lemma StepInto(space: Space, below: seq<Space>)
    requires below != [] && InTree(space, Place([space] + below, None, false))
    ensures InTree(below[0], Place([below[0]] + below[1..], None, false)) && below[0] in space.subspaces
  {
    var path := [space] + below;
    assert [below[0]] + below[1..] == below;
    assert path[1] == below[0] && path[0] == space;
    forall k | 0 <= k < |below| ensures below[k].id != "" { assert path[k + 1] == below[k]; }
    forall k, l | 0 <= k && l == k + 1 && l < |below| ensures below[l] in below[k].subspaces {
      assert path[k + 1] == below[k] && path[l + 1] == below[l];
    }
  }

  lemma {:induction false} SubspaceIncluded(texts: Texts, subspaces: seq<Space>, path: seq<Space>, space: Space, d: Draft)
    requires space in subspaces && d in SpaceDrafts(texts, space, path, None)
    ensures d in SubspacesDrafts(texts, subspaces, path)
  {
    var n := |subspaces| - 1;
    assert subspaces == subspaces[..n] + [subspaces[n]];
    if space in subspaces[..n] { SubspaceIncluded(texts, subspaces[..n], path, space, d); }
  }

  /** The documents of a tree: its preorder listing with empty and repeated contents dropped, each
      placed under spaces that really enclose it. */
  lemma TreeDocuments(texts: Texts, root: Space, top: Option<Kind>)
    ensures var drafts := SpaceDrafts(texts, root, [], top);
            && EmitAll(texts, Output([], {}), drafts).documents == ToDocuments(texts, NewDrafts(texts, drafts, |drafts|))
            && AllInTree(root, drafts)
  {
    var drafts := SpaceDrafts(texts, root, [], top);
    EmitDropsRepetitions(texts, drafts, |drafts|);
    TakeAll(drafts);
    SpaceInTree(texts, root, root, [], top);
  }
}
