/** The author handler of djangoerp/authtools/signals.py: the same grant as
    the core handler, but run on every save while the slot holds a user,
    created or not. */
module AuthtoolsSignals {
  import opened Wrappers
  import opened Models
  import opened Managers
  import opened Store
  import opened UserCache
  import opened Signals

  /** `_update_author_permissions(sender, instance, ...)`: no `created` test. */
  function AuthtoolsAuthorHandler(t: Tables, author: Option<UserId>, ct: ContentType, pk: nat): Effect<()> {
    if author.Some? then AuthorGrant(t, ct, pk, author.value) else Effect(Ok(()), t)
  }

  /** Unlike the core handler, a save that did not create the instance still
      grants the current user: the two differ exactly on such saves. */
  lemma AuthtoolsGrantsEditors(t: Tables, editor: UserId, ct: ContentType, pk: nat)
    requires AuthtoolsAuthorHandler(t, Some(editor), ct, pk).result.Ok?
    ensures var after := AuthtoolsAuthorHandler(t, Some(editor), ct, pk).after;
            && GrantedTo(after, AuthorRow(ct, "view", pk), editor)
            && GrantedTo(after, AuthorRow(ct, "change", pk), editor)
            && GrantedTo(after, AuthorRow(ct, "delete", pk), editor)
    ensures AuthorHandler(t, Some(editor), ct, pk, false) == Effect(Ok(()), t)
    ensures AuthtoolsAuthorHandler(t, Some(editor), ct, pk) == AuthorHandler(t, Some(editor), ct, pk, true)
  {
    AuthorGrantGrants(t, ct, pk, editor);
  }

  /** With no current user nothing changes; otherwise grantees are only
      added, and a repeated save by the same author changes nothing more. */
  lemma AuthtoolsHandlerOnlyAddsOnce(t: Tables, author: Option<UserId>, ct: ContentType, pk: nat)
    ensures author.None? ==> AuthtoolsAuthorHandler(t, author, ct, pk) == Effect(Ok(()), t)
    ensures Extends(t, AuthtoolsAuthorHandler(t, author, ct, pk).after)
    ensures var first := AuthtoolsAuthorHandler(t, author, ct, pk);
            first.result.Ok? ==> AuthtoolsAuthorHandler(first.after, author, ct, pk) == first
  {
    if author.Some? {
      HandlerOnlyAdds(t, author.value, ct, pk);
      HandlerOnce(t, author.value, ct, pk);
    }
  }

  lemma HandlerOnlyAdds(t: Tables, author: UserId, ct: ContentType, pk: nat)
    ensures Extends(t, AuthtoolsAuthorHandler(t, Some(author), ct, pk).after)
  {
    AuthorGrantOnlyAdds(t, ct, pk, author);
  }

  lemma HandlerOnce(t: Tables, author: UserId, ct: ContentType, pk: nat)
    ensures var first := AuthtoolsAuthorHandler(t, Some(author), ct, pk);
            first.result.Ok? ==> AuthtoolsAuthorHandler(first.after, Some(author), ct, pk) == first
  {
    var first := AuthorGrant(t, ct, pk, author);
    assert AuthtoolsAuthorHandler(t, Some(author), ct, pk) == first;
    if first.result.Ok? {
      assert first == Effect(Ok(()), first.after);
      AuthorGrantIdempotent(t, ct, pk, author);
      assert AuthtoolsAuthorHandler(first.after, Some(author), ct, pk) == AuthorGrant(first.after, ct, pk, author);
    }
  }

  /** The handler run on the database, the author read from the slot. */
  method UpdateAuthorPermissions(db: Database, slot: LoggedInUserCache, ct: ContentType, pk: nat)
    returns (r: Result<(), Error>)
    modifies db
    ensures var e := AuthtoolsAuthorHandler(old(db.Snapshot()), slot.Author(), ct, pk);
            r == e.result && db.Snapshot() == e.after
  {
    var author := slot.CurrentUser();
    if author != null {
      r := GrantAuthor(db, ct, pk, author.pk);
    } else {
      r := Ok(());
    }
  }
}
