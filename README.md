# kherge/xml reader core, modelled in Dafny

The PHP library turns a libxml `XMLReader` cursor into an iterator. Each key
is an XPath-like path such as `/root/child/#text[2]`. Each value is an
immutable node snapshot. This project models the four parts that make up
that core:

- **Path tracker** (`PathBuilder`, module `Paths`). It has a depth counter,
  a stack of open names, and for each depth a map from name to occurrence
  count. `push` and `pop` update them in place. `getPath` renders the path
  in a loop, and `getPosition` returns the sibling rank.
  - The object is a class over those three fields.
  - Its methods are proved against the value-level tracker `Tracker`, with
    `Pushed`, `Popped`, `Path` and `Position`.
  - The path builder test's push/pop sequences are in module
    `PathExamples`.
- **Node record and type codes** (`Node`, `NodeInterface`, modules `Nodes`
  and `NodeTypes`).
  - There are seventeen sequential integer type codes.
  - The node is an immutable record. Attribute lookup fails with
    NoSuchAttribute, and there is a qualified-name rule.
  - The `is*` predicates compare the type with one or two constants.
- **Validating builder** (`NodeBuilder`, module `NodeBuilding`).
  - It has nine nullable fields, each set by a setter that returns the
    builder itself.
  - `build()` checks depth, local name, position and type in that order.
    The first one missing decides the error.
- **Iterator** (`AbstractReader`, module `Reading`).
  - `next()` pops the tracker unless the node being left opens content. It
    then reads, and pushes the new node's name unless that node closes
    something.
  - `rewind()` installs a fresh tracker and runs `next()` once.
  - `valid()`, `key()` and `current()` read the cursor and the tracker.
  - There are helpers for the type map, `readType`, `readValue`,
    `valueOrNull`, and the `readAttributes` loop.

The `XMLReader` is a foreign library (module `Cursors`). It is modelled as
a sequence of tokens with an index and an optional attribute index. Each
token carries what the library reports: kind, name, local name, empty
flag, depth, `xml:lang`, prefix, namespace URI, value and attributes.

Module `ReaderTrace` traces the reader's own test document through the model:

```
<root a="alpha" type="test">
  <child id="1">
    <t:sub xml:lang="es" xmlns:t="url:kevin.herrera.io">prueba</t:sub>
    <t:sub xmlns:t="url:kevin.herrera.io"/>
  </child>
</root>
```

It proves that the thirteen keys of the iteration are exactly the ones the
test expects. It also proves what the node snapshots on the root, on the
text and on the empty `t:sub` are.

The model follows the code as written where it departs from the documented
or tested intent. The departures are listed under "Findings", each with a
corrected definition beside it. The iterator itself (`Reading.ReadType`,
`Reading.Snapshot`) uses the type as the code computes it. That is the only
way for the trace to show what the code actually does to entry #8.

Files: `outcomes.dfy`, `node_types.dfy`, `nodes.dfy`, `type_flags.dfy`,
`node_builder.dfy`, `path_builder.dfy`, `path_examples.dfy`, `cursor.dfy`,
`reader.dfy`, `reader_trace.dfy`. There is one module per file.

## Model

| member | source | states |
|---|---|---|
| NodeTypes.TypeCodesAreOneToSeventeen | src/KHerGe/XML/Node/NodeInterface.php:25-137 | the seventeen type constants are pairwise distinct and are exactly the integers 1 to 17; a code is a type code iff it lies in 1..17 |
| NodeTypes.SelfClosingTypeIsSignificantWhitespace | src/KHerGe/XML/AbstractReader.php:244-248 | `TYPE_ELEMENT \| TYPE_END_ELEMENT` (9 \| 7) is 15, the code of significant whitespace, and neither element code |
| Nodes.Node.GetAttribute | src/KHerGe/XML/Node/Node.php:105-115 | succeeds iff the name is a key, with that key's value; otherwise fails with NoSuchAttribute naming it |
| Nodes.Node.QualifiedName | src/KHerGe/XML/Node/Node.php:160-167 | the bare local name without a prefix; otherwise prefix, one colon, local name (length, prefix part, colon, suffix) |
| Nodes.QualifiedNameSplits | src/KHerGe/XML/Node/Node.php:160-167 | splitting the qualified name at its first colon gives back (prefix, localName) whenever neither contains a colon |
| Nodes.PredicatesClassifyTypes | src/KHerGe/XML/Node/Node.php:188-323 | codes 7..10 satisfy no single-kind predicate and exactly two composite ones; the other codes in 1..17 satisfy exactly one single-kind predicate and no composite one; anything outside 1..17 satisfies none |
| Nodes.StartAndEndAreExclusive | src/KHerGe/XML/Node/Node.php:236-307 | no type is both start and end; the self-closing type reads as significant whitespace and not as element, start or end |
| Nodes.TestedTypePairings | tests/KHerGe/XML/Node/NodeTest.php:84-276 | for each of the seventeen constants, the predicates the node test pairs with it hold |
| TypeFlags.SelfClosingFlagsAreStartAndEnd | src/KHerGe/XML/AbstractReader.php:244-248 | with one bit per type, the union for a self-closing element is an element, a start and an end, not an entity, and has exactly the two element kinds |
| TypeFlags.FlagsAgreeWithCodes | src/KHerGe/XML/Node/Node.php:236-307 | on a single code, the flag versions of isElement, isEnd, isEntity, isStart, isSignificantWhitespace and isText agree with the node's own predicates |
| NodeBuilding.Built | src/KHerGe/XML/Node/NodeBuilder.php:83-116 | succeeds iff depth, local name, position and type are all set; the first unset in that order gives MissingDepth, MissingLocalName, MissingPosition or MissingType; a built node's fields are the draft's fields by name |
| NodeBuilding.BuiltDescribeRoundTrip | src/KHerGe/XML/Node/NodeBuilder.php:105-115 | building from a node's own fields gives back that node |
| NodeBuilding.PrefixWithoutUriIsBuilt | tests/KHerGe/XML/Node/NodeBuilderTest.php:273-299 | the test's draft with a prefix and no URI is built without error, with prefix `t` and a null URI |
| NodeBuilding.BuiltChecked | src/KHerGe/XML/Node/NodeBuilderInterface.php:27-31 | build as documented: succeeds iff the four fields are set and prefix and URI are both set or both null; a lone URI gives MissingPrefix, a lone prefix MissingURI; otherwise the same as build as written |
| NodeBuilding.NodeBuilder.constructor | src/KHerGe/XML/Node/NodeBuilder.php:22-78 | a fresh builder has no attributes and every other field null |
| NodeBuilding.NodeBuilder.Build | src/KHerGe/XML/Node/NodeBuilder.php:83-116 | the result is the build of the builder's current fields |
| NodeBuilding.NodeBuilder.SetAttribute | src/KHerGe/XML/Node/NodeBuilder.php:121-126 | inserts or overwrites one attribute, changes no other field, returns the same builder |
| NodeBuilding.NodeBuilder.SetAttributes | src/KHerGe/XML/Node/NodeBuilder.php:131-136 | replaces the whole attribute map, changes no other field, returns the same builder |
| NodeBuilding.NodeBuilder.SetDepth | src/KHerGe/XML/Node/NodeBuilder.php:141-146 | sets only the depth (null allowed) and returns the same builder |
| NodeBuilding.NodeBuilder.SetLanguage | src/KHerGe/XML/Node/NodeBuilder.php:151-156 | sets only the language and returns the same builder |
| NodeBuilding.NodeBuilder.SetLocalName | src/KHerGe/XML/Node/NodeBuilder.php:161-166 | sets only the local name and returns the same builder |
| NodeBuilding.NodeBuilder.SetPosition | src/KHerGe/XML/Node/NodeBuilder.php:171-176 | sets only the position and returns the same builder |
| NodeBuilding.NodeBuilder.SetPrefix | src/KHerGe/XML/Node/NodeBuilder.php:181-186 | sets only the prefix and returns the same builder |
| NodeBuilding.NodeBuilder.SetType | src/KHerGe/XML/Node/NodeBuilder.php:191-196 | sets only the type and returns the same builder |
| NodeBuilding.NodeBuilder.SetURI | src/KHerGe/XML/Node/NodeBuilder.php:201-206 | sets only the URI and returns the same builder |
| NodeBuilding.NodeBuilder.SetValue | src/KHerGe/XML/Node/NodeBuilder.php:211-216 | sets only the value and returns the same builder |
| NodeBuilding.BuildChained | tests/KHerGe/XML/Node/NodeBuilderTest.php:28-113 | the test's setter chain builds the node with the merged attribute map `m[name := v]` and every other field as set |
| NodeBuilding.ResetRequiredField | src/KHerGe/XML/Node/NodeBuilder.php:85-103 | setting any of the four required fields back to null makes build fail with that field's error, as if it had never been set |
| Paths.ChildAdded | src/KHerGe/XML/Node/PathBuilder.php:94-105 | addChild on levels: the name's count at that depth goes up by one from 0 when absent, no other count or depth changes, and the level is created when missing |
| Paths.ChildrenDropped | src/KHerGe/XML/Node/PathBuilder.php:110-119 | dropChildren keeps exactly the levels 0..depth when the depth's level exists, and everything otherwise |
| Paths.Pushed | src/KHerGe/XML/Node/PathBuilder.php:66-73 | push keeps the tracker well formed, goes one deeper, appends the name, adds one to its count at the new depth, and leaves every other count and the levels above unchanged |
| Paths.Popped | src/KHerGe/XML/Node/PathBuilder.php:78-87 | pop at depth -1 changes nothing; otherwise it goes one level up, drops the last name, and keeps the levels 0..depth (a prefix of the old ones) |
| Paths.NatToString | src/KHerGe/XML/Node/PathBuilder.php:43-45 | the count written between brackets: non-empty decimal digits, no leading zero, whose decimal value is the count itself |
| Paths.Path | src/KHerGe/XML/Node/PathBuilder.php:36-49 | getPath always returns an absolute path (non-empty, starting with `/`), and `/` when nothing is open |
| Paths.PushedPosition | src/KHerGe/XML/Node/PathBuilder.php:54-73 | right after a push, the position is one more than the name's count at the new depth before the push |
| Paths.Position | src/KHerGe/XML/Node/PathBuilder.php:54-61 | null iff nothing is open; otherwise the count of the top name at the top depth, at least 1 |
| Paths.InitialTracker | src/KHerGe/XML/Node/PathBuilder.php:17-31 | a fresh tracker is well formed, its path is `/` and its position null |
| Paths.RootPathIffNothingOpen | src/KHerGe/XML/Node/PathBuilder.php:36-49 | with non-empty names (as XML names are), the path is never empty, and it is `/` exactly when no node is open |
| Paths.RenderedReadsOpenLevels | src/KHerGe/XML/Node/PathBuilder.php:36-49 | the path depends only on the names and the counts of the open depths |
| Paths.PushedPath | src/KHerGe/XML/Node/PathBuilder.php:66-73 | after push the path is the parent's segments plus one segment for the name with its new count |
| Paths.PopUndoesPushOnPath | src/KHerGe/XML/Node/PathBuilder.php:78-87 | push then pop restores the depth, the names and the path |
| Paths.LeafCounted | src/KHerGe/XML/Node/PathBuilder.php:66-119 | one child opened and closed keeps the depth, names and open counts; one level below it adds one to its name's count and leaves every other name's count unchanged |
| Paths.SubtreeCounted | src/KHerGe/XML/Node/PathBuilder.php:66-119 | a complete child subtree (push, any balanced history of its own children, pop) keeps the depth, names and open counts; one level below it adds one to the child's own name and changes no other name's count |
| Paths.TreesCounted | src/KHerGe/XML/Node/PathBuilder.php:94-119 | for any sequence of sibling subtrees, in any order of names and with any children, each name's count one level below rises by the number of those siblings that carry it, and the open levels are unchanged |
| Paths.TreesKeepPath | src/KHerGe/XML/Node/PathBuilder.php:36-119 | walking any sequence of child subtrees under the current node leaves its path unchanged |
| Paths.SiblingPosition | src/KHerGe/XML/Node/PathBuilder.php:54-119 | after any earlier siblings under the same open parent (other names in between, siblings with children of their own), the parent's path is unchanged and a child named n is at position c + k + 1, c being the parent level's earlier count of n and k the number of those siblings named n |
| Paths.FirstSiblingUnderNewParent | src/KHerGe/XML/Node/PathBuilder.php:110-119 | under a parent just opened the count restarts, because a push leaves no level below the new node: after any earlier children, a child named n is at position k + 1, k being how many of them are named n |
| Paths.PathBuilder.constructor | src/KHerGe/XML/Node/PathBuilder.php:17-31 | a new object is the fresh tracker: depth -1, no names, no counts |
| Paths.PathBuilder.GetPath | src/KHerGe/XML/Node/PathBuilder.php:36-49 | the loop returns the tracker's path |
| Paths.PathBuilder.GetPosition | src/KHerGe/XML/Node/PathBuilder.php:54-61 | returns the tracker's position |
| Paths.PathBuilder.Push | src/KHerGe/XML/Node/PathBuilder.php:66-73 | the new state is the pushed tracker and remains well formed |
| Paths.PathBuilder.Pop | src/KHerGe/XML/Node/PathBuilder.php:78-87 | the new state is the popped tracker and remains well formed |
| Paths.PathBuilder.AddChild | src/KHerGe/XML/Node/PathBuilder.php:94-105 | changes only the counts, as ChildAdded says |
| Paths.PathBuilder.DropChildren | src/KHerGe/XML/Node/PathBuilder.php:110-119 | changes only the counts, as ChildrenDropped says |
| PathExamples.PathOfOpenNames | src/KHerGe/XML/Node/PathBuilder.php:40-46 | with one to three names open, the path is their segments in order |
| PathExamples.PopOnFreshTracker | tests/KHerGe/XML/Node/PathBuilderTest.php:33-38 | pop on a fresh tracker leaves the path `/` and the position null |
| PathExamples.SecondRootPath | tests/KHerGe/XML/Node/PathBuilderTest.php:40-48 | push, pop, pop, push of `root` gives `/root[2]` at position 2 |
| PathExamples.ChildPaths | tests/KHerGe/XML/Node/PathBuilderTest.php:50-72 | `/root`, then `/root/child`, then `/root` again after the child is popped |
| PathExamples.SecondChildPath | tests/KHerGe/XML/Node/PathBuilderTest.php:74-82 | a child opened after its sibling closed is `/root/child[2]` at position 2 |
| PathExamples.GrandchildPath | tests/KHerGe/XML/Node/PathBuilderTest.php:84-95 | the grandchild under the second child is `/root/child[2]/sub` |
| PathExamples.ThirdChildPath | tests/KHerGe/XML/Node/PathBuilderTest.php:97-113 | after the second child's subtree closes, the third child is `/root/child[3]` |
| PathExamples.SecondChildPosition | tests/KHerGe/XML/Node/PathBuilderTest.php:144-161 | on the object: no position before any push, position 2 for the second child |
| Cursors.Cursor.Read | src/KHerGe/XML/AbstractReader.php:136 | read succeeds iff a token is left, moves one token on, and past the end leaves the cursor on NONE |
| Cursors.Cursor.MoveToFirstAttribute | src/KHerGe/XML/AbstractReader.php:225 | succeeds iff the node has attributes, and then stands on the first |
| Cursors.Cursor.MoveToNextAttribute | src/KHerGe/XML/AbstractReader.php:228 | from the node it is moveToFirstAttribute; from attribute i it succeeds iff there is an i + 1 and moves there |
| Cursors.Cursor.MoveToElement | src/KHerGe/XML/AbstractReader.php:230 | returns to the node; true iff the cursor was on an attribute |
| Cursors.Opened | src/KHerGe/XML/AbstractReader.php:182-195 | a freshly set cursor is before the first node and reports NONE |
| Cursors.ReadsVisitTokensInOrder | src/KHerGe/XML/AbstractReader.php:136 | k reads from a fresh cursor stand on the k-th token, and the next read succeeds iff a token is left |
| Cursors.XmlReader.constructor | src/KHerGe/XML/AbstractReader.php:182-195 | the object starts as the freshly opened cursor over the document |
| Cursors.XmlReader.Read | src/KHerGe/XML/AbstractReader.php:136 | moves the object as Cursor.Read says |
| Cursors.XmlReader.MoveToFirstAttribute | src/KHerGe/XML/AbstractReader.php:225 | moves the object as Cursor.MoveToFirstAttribute says |
| Cursors.XmlReader.MoveToNextAttribute | src/KHerGe/XML/AbstractReader.php:228 | moves the object as Cursor.MoveToNextAttribute says |
| Cursors.XmlReader.MoveToElement | src/KHerGe/XML/AbstractReader.php:230 | moves the object as Cursor.MoveToElement says |
| Reading.TypeMap | src/KHerGe/XML/AbstractReader.php:52-70 | every kind but NONE has a type in 1..17; NONE has none |
| Reading.TypeMapIsBijective | src/KHerGe/XML/AbstractReader.php:52-70 | the type map and its reverse are inverse: one-to-one and onto the seventeen types |
| Reading.TypeMapInjective | src/KHerGe/XML/AbstractReader.php:52-70 | two kinds with the same type are the same kind |
| Reading.ReadType | src/KHerGe/XML/AbstractReader.php:242-251 | none iff the token is NONE; always a code in 1..17; the type map's type for everything but an empty element |
| Reading.SelfClosingReadsAsWhitespace | src/KHerGe/XML/AbstractReader.php:244-248 | an empty element and a significant whitespace token get the same type, 15 |
| Reading.ReadTypeFlags | src/KHerGe/XML/AbstractReader.php:244-248 | corrected readType: an empty element is element, start and end and not whitespace; every other token has its type's one bit |
| Reading.FlagsSeparateSelfClosing | src/KHerGe/XML/AbstractReader.php:244-248 | with flags, an empty element and a whitespace token are told apart |
| Reading.ValueOrNull | src/KHerGe/XML/AbstractReader.php:274-277 | null iff the string is empty; otherwise the string unchanged |
| Reading.ValueOrNullRoundTrip | src/KHerGe/XML/AbstractReader.php:274-277 | reading the result back gives the input; on anything but `Some("")` it is a right inverse too; it never yields `Some("")` |
| Reading.ReadValue | src/KHerGe/XML/AbstractReader.php:258-265 | null iff the value is empty; reading it back gives the value |
| Reading.AttributeMapKeys | src/KHerGe/XML/AbstractReader.php:220-235 | the attribute array has a key for exactly the attribute names |
| Reading.AttributeMapValues | src/KHerGe/XML/AbstractReader.php:220-235 | each name maps to the value of its last occurrence |
| Reading.ReadAttributes | src/KHerGe/XML/AbstractReader.php:220-235 | the empty map without attributes, otherwise every attribute's name to value; the cursor is left where it was |
| Reading.Advance | src/KHerGe/XML/AbstractReader.php:120-146 | next() reads the cursor exactly once and keeps the walk well formed; what it does to the tracker is stated by AdvanceMovesOneLevel |
| Reading.Start | src/KHerGe/XML/AbstractReader.php:151-158 | rewind() leaves the cursor on the first token; the tracker then holds just that token's name, or nothing when the document is empty or starts with a closing node |
| Reading.OnNode | src/KHerGe/XML/AbstractReader.php:163-166 | valid() is false before the first read and past the last token, and true on every token of a document without NONE tokens |
| Reading.Key | src/KHerGe/XML/AbstractReader.php:112-115 | key() is always an absolute path, and `/` when nothing is open |
| Reading.Snapshot | src/KHerGe/XML/AbstractReader.php:89-107 | current() builds a node exactly when valid() holds and something is open; with nothing open it fails with MissingPosition (the position check precedes the type check), and past the end with something open with MissingType |
| Reading.AdvanceMovesOneLevel | src/KHerGe/XML/AbstractReader.php:124-145 | next() changes the depth by minus one unless the node left opens content (or nothing is open), plus one when a non-closing node is read; the name read is then on top; otherwise the counts are those after the optional pop |
| Reading.PositionField | src/KHerGe/XML/AbstractReader.php:100 | the position current() passes is null iff nothing is open, and at least 1 otherwise |
| Reading.CurrentWhileValid | src/KHerGe/XML/AbstractReader.php:89-107 | on a node with something open, current() builds a node whose depth, local name, attributes, position and type are the cursor's and the tracker's; its language, prefix, URI and value read back as the cursor's strings, and the prefix is null exactly when the cursor reports none |
| Reading.CurrentPastTheEnd | src/KHerGe/XML/AbstractReader.php:89-146 | on a nested document whose last node is at depth 0 and opens nothing, the next() after the last node pops the tracker empty and reads past the end: valid() is false, key() is `/`, and current() fails with MissingPosition |
| Reading.VisitedSteps | src/KHerGe/XML/AbstractReader.php:120-166 | from a walk on a token, the iteration stands on every remaining token once, in order, each walk one next() after the previous one |
| Reading.IterationVisitsEveryToken | src/KHerGe/XML/AbstractReader.php:112-166 | from rewind() until valid() is false, there is exactly one entry per token, in document order, made of that walk's key and current node |
| Reading.TrackerFollowsDepth | src/KHerGe/XML/AbstractReader.php:124-145 | on a nested document, on every node the tracker is as deep as the reported depth, with the node's name on top unless it is a closing node |
| Reading.AdvanceKeepsLevels | src/KHerGe/XML/AbstractReader.php:124-145 | a next() that does not close depth d keeps the names and counts of depths 0..d |
| Reading.InsideKeepsLevels | src/KHerGe/XML/AbstractReader.php:124-145 | while the walk stays below an opened node's depth, that depth and those above keep their names and counts |
| Reading.EndKeyMatchesStartKey | src/KHerGe/XML/AbstractReader.php:112-146 | the closing node of an element has the key its opening node had |
| Reading.Reader.constructor | src/KHerGe/XML/AbstractReader.php:78-84 | a new reader has neither cursor nor tracker |
| Reading.Reader.GetReader | src/KHerGe/XML/AbstractReader.php:204-213 | the cursor when set, otherwise MissingInternalReader |
| Reading.Reader.Next | src/KHerGe/XML/AbstractReader.php:120-146 | MissingInternalReader iff no cursor is set; otherwise the new state is one next() step of the old |
| Reading.Reader.Rewind | src/KHerGe/XML/AbstractReader.php:151-158 | a fresh tracker is installed; without a cursor it fails with MissingInternalReader; with a new document the state is the start of that document |
| Reading.Reader.Valid | src/KHerGe/XML/AbstractReader.php:163-166 | MissingInternalReader without a cursor; otherwise whether the cursor is on a node |
| Reading.Reader.Key | src/KHerGe/XML/AbstractReader.php:112-115 | the tracker's path |
| Reading.Reader.Current | src/KHerGe/XML/AbstractReader.php:89-107 | MissingInternalReader without a cursor; otherwise the node built from the cursor and tracker, with the cursor back where it was |
| Reading.BuildNode | src/KHerGe/XML/AbstractReader.php:93-106 | the setter chain of current() gives the build of the draft with those nine fields |
| ReaderTrace.DocumentIsNested | tests/KHerGe/XML/AbstractReaderTest.php:26-33 | the test document's thirteen nodes are nested: depths follow from the node before, and none is NONE |
| ReaderTrace.TraceTrackers | tests/KHerGe/XML/AbstractReaderTest.php:61-843 | on each of the thirteen nodes the tracker has the names and counts the iteration builds |
| ReaderTrace.Key7 | tests/KHerGe/XML/AbstractReaderTest.php:486-488 | the whitespace after the first `t:sub` closes is `/root/child/#text[2]` |
| ReaderTrace.KeyOnNode | tests/KHerGe/XML/AbstractReaderTest.php:854-868 | key() on the k-th node of the iteration is the k-th expected key |
| ReaderTrace.IterationKeys | tests/KHerGe/XML/AbstractReaderTest.php:61-843 | the keys of the whole iteration are exactly the thirteen paths the test expects, in order |
| ReaderTrace.RootEntry | tests/KHerGe/XML/AbstractReaderTest.php:65-126 | entry #0 is `/root` with the root element node: two attributes, depth 0, position 1, no language, prefix, URI or value |
| ReaderTrace.TextEntry | tests/KHerGe/XML/AbstractReaderTest.php:364-419 | entry #5 is the text `prueba` at depth 3, position 1, in language `es` |
| ReaderTrace.EmptySubEntry | tests/KHerGe/XML/AbstractReaderTest.php:541-608 | entry #8 is `/root/child/t:sub[2]`, position 2, depth 2, prefix `t` and its URI, with the type code 15 |
| ReaderTrace.EmptySubReadsAsWhitespace | tests/KHerGe/XML/AbstractReaderTest.php:582-595 | entry #8's node is significant whitespace and none of element, start or end, which the test asserts it is |
| ReaderTrace.EmptySubFlags | tests/KHerGe/XML/AbstractReaderTest.php:582-595 | with flags, the same token is an element, a start and an end and not significant whitespace |

## Left out

- The `XMLReader` itself is a foreign library. Its tokens are given, not computed. That covers `xml:lang` inheritance, namespace resolution, attribute decoding and the depth it reports.
- The factories (`PathBuilderFactory`, `NodeBuilderFactory`, `AbstractReaderFactory` and the file and callable reader factories) only construct objects. So do `FileReader` and `CallableReader`, which open files or run user callables. `Reading.Reader.Rewind` creates its tracker directly.
- `Reading.Reader.Rewind`: `reset()` is abstract. It is modelled as a document argument. A given document becomes the cursor; `null` leaves the cursor as it was.
- `Reading.Reader.Key` requires that `rewind()` has created the tracker. In PHP, calling `key()` earlier is a method call on null, a fatal error that the library does not handle.
- `build()` passes nine arguments, including the position, to the eight-parameter `Node` constructor. From the position on, each value fills the parameter of the field after it: the position becomes `$depth`, the depth `$language`, the language `$prefix` and the prefix `$uri`. The URI lands in the `array $attributes` parameter, and the attributes are a ninth, surplus argument. This shift and the PHP `TypeError` it causes are not reproduced. `Nodes.Node` takes its fields by name and has its own `position` field, as the builder, the reader and the tests expect. The declaration of `Nodes.Node` records the shift.
- The node getters are the datatype's field selectors. There is nothing to prove about them beyond the fields being fixed at construction.
- PHP array details are not modelled: key coercion and iteration order. Attributes and per-depth counts are Dafny maps, and the tracker's levels are a sequence. `$positions` is always keyed 0..n-1 by construction.
- `Reading.ReadType`: the type map lookup for NONE is undefined in PHP, which yields null with a notice. Here it is `None`.
- `getPosition` is missing from the path builder interface, although the reader calls it. The model calls the class method directly.

## Findings

| source | as written | input that shows it | evidently intended | confidence | as-written member | corrected member |
|---|---|---|---|---|---|---|
| src/KHerGe/XML/AbstractReader.php:244-248 | an empty element gets `TYPE_ELEMENT \| TYPE_END_ELEMENT`, which is 9 \| 7 = 15 because the codes are sequential; 15 is `TYPE_SIGNIFICANT_WHITESPACE`, so the node reads as whitespace and as neither element, start nor end | `<t:sub xmlns:t="url:kevin.herrera.io"/>` in the reader test document (entry #8) | a type that is at once element, start and end, as the test at tests/KHerGe/XML/AbstractReaderTest.php:582-595 asserts, e.g. one bit per type | high (proved; not executed) | ReaderTrace.EmptySubReadsAsWhitespace | ReaderTrace.EmptySubFlags |
| src/KHerGe/XML/Node/NodeBuilder.php:83-116 | build() checks depth, local name, position and type only; the MissingPrefix and MissingURI failures documented at src/KHerGe/XML/Node/NodeBuilderInterface.php:27-31 are never raised | the draft of tests/KHerGe/XML/Node/NodeBuilderTest.php:273-299: prefix `t`, no URI | a lone prefix fails with MissingURI and a lone URI with MissingPrefix | high (proved; not executed) | NodeBuilding.PrefixWithoutUriIsBuilt | NodeBuilding.BuiltChecked |
