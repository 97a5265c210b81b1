/**
 * The legacy outlining tag `BlockTag`: a value built once by its
 * constructor, whose `Level` is its nesting depth below the root.
 */
module BlockTag {
  import opened Common

  datatype BlockTag = BlockTag(
    span: SnapshotSpan,
    level: int,
    statementSpan: SnapshotSpan,
    parent: Option<BlockTag>,
    tagType: string,
    isCollapsible: bool,
    isDefaultCollapsed: bool,
    isImplementation: bool,
    collapsedForm: Option<Handle>,
    collapsedHintForm: Option<Handle>)

  /** The constructor: every property is its argument, and `Level` is one more than the parent's. */
  function NewBlockTag(span: SnapshotSpan, statementSpan: SnapshotSpan, parent: Option<BlockTag>, tagType: string,
                       isCollapsible: bool, isDefaultCollapsed: bool, isImplementation: bool,
                       collapsedForm: Option<Handle>, collapsedHintForm: Option<Handle>): (t: BlockTag)
    ensures parent.None? ==> t.level == 0
    ensures parent.Some? ==> t.level == parent.value.level + 1
    ensures t.span == span && t.statementSpan == statementSpan && t.parent == parent && t.tagType == tagType
    ensures t.isCollapsible == isCollapsible && t.isDefaultCollapsed == isDefaultCollapsed
    ensures t.isImplementation == isImplementation
    ensures t.collapsedForm == collapsedForm && t.collapsedHintForm == collapsedHintForm
  {
    BlockTag(span, if parent.None? then 0 else parent.value.level + 1, statementSpan, parent, tagType,
             isCollapsible, isDefaultCollapsed, isImplementation, collapsedForm, collapsedHintForm)
  }

  /** The number of tags on the `Parent` chain above `t`. */
  function Depth(t: BlockTag): nat
    decreases t
  {
    match t.parent
    case None => 0
    case Some(p) => 1 + Depth(p)
  }

  /** `t` and all its ancestors are what the constructor builds from their own properties. */
  ghost predicate Constructed(t: BlockTag)
    decreases t
  {
    && t == NewBlockTag(t.span, t.statementSpan, t.parent, t.tagType, t.isCollapsible, t.isDefaultCollapsed,
                        t.isImplementation, t.collapsedForm, t.collapsedHintForm)
    && (t.parent.Some? ==> Constructed(t.parent.value))
  }

  /** For tags built by the constructor, `Level` is the length of the `Parent` chain. */
  lemma {:induction false} LevelIsDepth(t: BlockTag)
    requires Constructed(t)
    ensures t.level == Depth(t)
    decreases t
  {
    if t.parent.Some? {
      LevelIsDepth(t.parent.value);
    }
  }

  /** A freshly built tag over constructed parents is itself constructed, one level below its parent. */
  lemma NewTagIsConstructed(span: SnapshotSpan, statementSpan: SnapshotSpan, parent: Option<BlockTag>, tagType: string,
                            isCollapsible: bool, isDefaultCollapsed: bool, isImplementation: bool,
                            collapsedForm: Option<Handle>, collapsedHintForm: Option<Handle>)
    requires parent.Some? ==> Constructed(parent.value)
    ensures Constructed(NewBlockTag(span, statementSpan, parent, tagType, isCollapsible, isDefaultCollapsed,
                                    isImplementation, collapsedForm, collapsedHintForm))
  {
  }
}
