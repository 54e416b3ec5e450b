/**
 * The context object a migration workflow passes to user-defined message
 * transformers: a working commit message and author that transformers may
 * overwrite, and two fixed batches of changes (the ones being migrated now
 * and the ones migrated before) shown to them as read-only views.
 */
module MsgTransformer {
  import opened CopybaraTypes

  /**
   * The change-to-view converter: the author is resolved through the
   * authoring policy, the reference rendered with `asString`, and message
   * and labels copied unchanged.
   */
  function ToSkylarkChange<R>(authoring: Authoring, asString: R -> string, change: Change<R>): (view: SkylarkChange)
    ensures view.author == authoring.resolve(change.originalAuthor)
    ensures view.reference == asString(change.reference)
    ensures view.message == change.message
    ensures view.labels == change.labels
  {
    SkylarkChange(
      authoring.resolve(change.originalAuthor),
      asString(change.reference),
      change.message,
      change.labels)
  }

  /**
   * The converter mapped over a batch: one view per change, in the order of
   * the batch.
   */
  function ToSkylarkChanges<R>(authoring: Authoring, asString: R -> string, changes: seq<Change<R>>): (views: seq<SkylarkChange>)
    ensures |views| == |changes|
    ensures forall i :: 0 <= i < |changes| ==> views[i] == ToSkylarkChange(authoring, asString, changes[i])
  {
    if changes == [] then []
    else [ToSkylarkChange(authoring, asString, changes[0])] + ToSkylarkChanges(authoring, asString, changes[1..])
  }

  /**
   * Every change of the batch shows up as its view, and every view is the
   * view of some change of the batch.
   */
  lemma ViewsAreConversions<R>(authoring: Authoring, asString: R -> string, changes: seq<Change<R>>)
    ensures forall c :: c in changes ==> ToSkylarkChange(authoring, asString, c) in ToSkylarkChanges(authoring, asString, changes)
    ensures forall v :: v in ToSkylarkChanges(authoring, asString, changes) ==>
              exists c :: c in changes && v == ToSkylarkChange(authoring, asString, c)
  {
    var views := ToSkylarkChanges(authoring, asString, changes);
    forall c | c in changes
      ensures ToSkylarkChange(authoring, asString, c) in views
    {
      var i :| 0 <= i < |changes| && changes[i] == c;
      assert views[i] == ToSkylarkChange(authoring, asString, c);
    }
    forall v | v in views
      ensures exists c :: c in changes && v == ToSkylarkChange(authoring, asString, c)
    {
      var i :| 0 <= i < |views| && views[i] == v;
      assert changes[i] in changes;
    }
  }

  /**
   * The authors a transformer sees in the views are exactly the original
   * authors of the batch as resolved by the policy.
   */
  lemma ResolvedAuthors<R>(authoring: Authoring, asString: R -> string, changes: seq<Change<R>>)
    ensures (set v | v in ToSkylarkChanges(authoring, asString, changes) :: v.author)
         == (set c | c in changes :: authoring.resolve(c.originalAuthor))
  {
    ViewsAreConversions(authoring, asString, changes);
  }

  /**
   * The context itself. `R` is the origin's reference type and `asString`
   * stands for the reference's own `asString`; the three batch-related
   * fields are fixed at construction, so they are constants.
   */
  class MsgTransformerCtx<R> {
    var message: string
    var author: Author
    const currentChanges: seq<Change<R>>
    const alreadyMigrated: seq<Change<R>>
    const authoring: Authoring
    const asString: R -> string

    constructor (message: string, author: Author,
                 currentChanges: seq<Change<R>>, alreadyMigrated: seq<Change<R>>,
                 authoring: Authoring, asString: R -> string)
      ensures this.message == message && this.author == author
      ensures this.currentChanges == currentChanges && this.alreadyMigrated == alreadyMigrated
      ensures this.authoring == authoring && this.asString == asString
    {
      this.message := message;
      this.author := author;
      this.currentChanges := currentChanges;
      this.alreadyMigrated := alreadyMigrated;
      this.authoring := authoring;
      this.asString := asString;
    }

    /** The message the migrated change will carry. */
    method GetMessage() returns (m: string)
      ensures m == message
    {
      m := message;
    }

    /** The author the migrated change will carry. */
    method GetAuthor() returns (a: Author)
      ensures a == author
    {
      a := author;
    }

    /** Replaces the whole working message; the working author is untouched. */
    method SetMessage(message: string)
      modifies this`message
      ensures this.message == message
      ensures author == old(author)
    {
      this.message := message;
    }

    /** Replaces the working author; the working message is untouched. */
    method SetAuthor(author: Author)
      modifies this`author
      ensures this.author == author
      ensures message == old(message)
    {
      this.author := author;
    }

    /** The changes being migrated, as views, in their original order. */
    function GetChanges(): (views: seq<SkylarkChange>)
      ensures |views| == |currentChanges|
      ensures forall i :: 0 <= i < |currentChanges| ==>
                views[i] == ToSkylarkChange(authoring, asString, currentChanges[i])
    {
      ToSkylarkChanges(authoring, asString, currentChanges)
    }

    /** The changes migrated before, as views, in their original order. */
    function GetMigratedChanges(): (views: seq<SkylarkChange>)
      ensures |views| == |alreadyMigrated|
      ensures alreadyMigrated == [] ==> views == []
      ensures forall i :: 0 <= i < |alreadyMigrated| ==>
                views[i] == ToSkylarkChange(authoring, asString, alreadyMigrated[i])
    {
      ToSkylarkChanges(authoring, asString, alreadyMigrated)
    }
  }

  /**
   * The views depend on the batches, the policy and the reference rendering
   * only: two contexts that agree on those show the same views whatever
   * their working messages and authors are.
   */
  lemma ViewsIgnoreWorkingState<R>(c1: MsgTransformerCtx<R>, c2: MsgTransformerCtx<R>)
    requires c1.currentChanges == c2.currentChanges && c1.alreadyMigrated == c2.alreadyMigrated
    requires c1.authoring == c2.authoring && c1.asString == c2.asString
    ensures c1.GetChanges() == c2.GetChanges()
    ensures c1.GetMigratedChanges() == c2.GetMigratedChanges()
  {
  }

  /**
   * A client: one context handed to two transformers in turn, the first
   * rewriting the message and the second the author.
   */
  method TwoTransformers()
  {
    var jane := Author("Jane Doe", "jane@x.com");
    var bot := Author("CI Bot", "ci@x.com");
    var r1 := Change("r1", Author("J", "j@x.com"), "fix", map[]);
    var passThrough := Authoring(a => a);
    var ctx := new MsgTransformerCtx<string>("Fix bug", jane, [r1], [], passThrough, s => s);
    var before := ctx.GetChanges();

    // first transformer
    var m := ctx.GetMessage();
    assert m == "Fix bug";
    ctx.SetMessage(m + "\n\nCo-authored");
    // second transformer
    ctx.SetAuthor(bot);

    m := ctx.GetMessage();
    var a := ctx.GetAuthor();
    assert m == "Fix bug\n\nCo-authored" && a == bot;
    var after := ctx.GetChanges();
    assert after == before && |after| == 1 && after[0].reference == "r1";
    assert after[0].author == Author("J", "j@x.com");
    assert ctx.GetMigratedChanges() == [];
  }
}
