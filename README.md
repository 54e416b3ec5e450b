# Copybara message-transformer context in Dafny

This project models `MsgTransformerCtx`, the `change_ctx` object that a
Copybara workflow hands to user-defined message transformers. The context
holds a working commit message and a working author, which transformers
read and overwrite. It also holds two fixed batches of changes: the ones
being migrated now and the ones migrated before. Transformers see each
batch as a list of `SkylarkChange` views.

Layout:

- `types.dfy`, module `CopybaraTypes`: the value types `Author`,
  `Change<R>` and `SkylarkChange`. It also holds `Authoring`, the authoring
  policy reduced to its one operation `resolve`, a total function.
- `msg_transformer_ctx.dfy`, module `MsgTransformer`:
  - the converter `ToSkylarkChange` (the inner `SkylarkChangeConverter`);
  - its map over a batch, `ToSkylarkChanges`, and lemmas about it;
  - the class `MsgTransformerCtx<R>`;
  - a client method `TwoTransformers`: two transformers run in turn on one
    context, and the final message, author and views are asserted.

The batches and the authoring policy are `const` fields of the Dafny class:
nothing in the context changes them after construction. `message` and
`author` are `var` fields, and each setter may modify only its own field.
The views read only constant fields, so repeated `GetChanges()` / `GetMigratedChanges()`
calls give equal sequences, whatever setters ran between them. The Java
type bound `R extends Reference` becomes a type parameter `R` plus a
constant `asString: R -> string` given at construction. This constant stands
for the reference's own `asString()`.

## Model

| member | source | states |
|---|---|---|
| `MsgTransformer.MsgTransformerCtx.constructor` | java/com/google/copybara/MsgTransformerCtx.java:30-38 | the new context holds exactly the given message, author, both batches and the authoring policy |
| `MsgTransformer.MsgTransformerCtx.GetMessage` | java/com/google/copybara/MsgTransformerCtx.java:41-43 | returns the current working message, and changes nothing |
| `MsgTransformer.MsgTransformerCtx.GetAuthor` | java/com/google/copybara/MsgTransformerCtx.java:46-48 | returns the current working author, and changes nothing |
| `MsgTransformer.MsgTransformerCtx.SetMessage` | java/com/google/copybara/MsgTransformerCtx.java:51-53 | afterwards the working message is exactly the argument (full replacement, last write wins); the author is unchanged; only the message field may change |
| `MsgTransformer.MsgTransformerCtx.SetAuthor` | java/com/google/copybara/MsgTransformerCtx.java:56-58 | afterwards the working author is exactly the argument; the message is unchanged; only the author field may change |
| `MsgTransformer.MsgTransformerCtx.GetChanges` | java/com/google/copybara/MsgTransformerCtx.java:61-63 | one view per current change, same length, element i is the conversion of current change i |
| `MsgTransformer.MsgTransformerCtx.GetMigratedChanges` | java/com/google/copybara/MsgTransformerCtx.java:68-70 | the same length and order guarantee over the already-migrated batch; an empty batch gives an empty sequence |
| `MsgTransformer.ToSkylarkChange` | java/com/google/copybara/MsgTransformerCtx.java:79-85 | the view's author is the policy's resolution of the change's original author, its reference is the reference's string, its message and labels are the change's |
| `MsgTransformer.ToSkylarkChanges` | java/com/google/copybara/MsgTransformerCtx.java:62 | converting a batch preserves its length and order: element i is the conversion of change i |
| `MsgTransformer.ViewsAreConversions` | java/com/google/copybara/MsgTransformerCtx.java:61-63 | every change of a batch appears as its view, and every view is the view of some change of the batch |
| `MsgTransformer.ResolvedAuthors` | java/com/google/copybara/MsgTransformerCtx.java:79-81 | the set of view authors equals the set of resolved original authors of the batch |
| `MsgTransformer.ViewsIgnoreWorkingState` | java/com/google/copybara/MsgTransformerCtx.java:24-28 | two contexts with the same batches, policy and reference rendering show the same views, whatever their working message and author |

## Left out

- The Skylark annotations (`@SkylarkModule`, `@SkylarkCallable`) and the
  reflective exposure to scripts: binding machinery with no behaviour of
  its own.
- `MutableList` and the laziness of `Iterables.transform`: the views are
  plain sequences. Each call builds a new list, so nothing a script does to
  a returned list reaches the context.
- The batches are taken as immutable values. Java keeps the caller's
  `Iterable`s by reference and walks them again on every call, so changes
  the caller makes to them later are not modelled.
- The resolution rules of `Authoring.resolve` and the rendering done by
  `Reference.asString`: their classes are not part of this model. They
  are arbitrary total functions, fixed for the lifetime of a context.
- The other fields and methods of `Change`, `Author`, `SkylarkChange` and
  `Authoring`: only what the context reads is modelled.
- `null`: Java accepts a null message, author, batch or authoring policy,
  a null change inside a batch, and a change with a null reference. A null
  batch makes the matching view call throw. A null policy, a null change or
  a change with a null reference throws once the converter reaches such a
  change. An empty batch never throws. The model has no null, so every
  field is always defined and the views never fail.
- The workflow engine that builds the context, runs the transformers in
  order and commits the result is not part of this model; `TwoTransformers`
  only shows one such run.
