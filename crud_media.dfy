/** `backend/api/db/crud/media.py`: resolving attachment ids to links, and the media insert. */
module MediaCrud {
  import opened Wrappers
  import opened Errors
  import opened Models
  import opened Store

  /** The links of the ids that have a media row, in input order. */
  function AttachmentLinks(media: map<int, Media>, ids: seq<int>): (r: seq<string>)
    decreases |ids|
  {
    if |ids| == 0 then []
    else
      var last := ids[|ids| - 1];
      AttachmentLinks(media, ids[..|ids| - 1]) + (if last in media then [media[last].link] else [])
  }

  /** `get_attachments_links_by_ids`: one lookup per id, appending each link found. */
  method GetAttachmentsLinksByIds(session: Session, attachmentsIds: seq<int>) returns (attachmentsLinks: seq<string>)
    ensures attachmentsLinks == AttachmentLinks(session.media, attachmentsIds)
  {
    attachmentsLinks := [];
    var i := 0;
    while i < |attachmentsIds|
      invariant 0 <= i <= |attachmentsIds|
      invariant attachmentsLinks == AttachmentLinks(session.media, attachmentsIds[..i])
    {
      var attachmentId := attachmentsIds[i];
      var attachment := if attachmentId in session.media then Some(session.media[attachmentId]) else None;
      if attachment.Some? {
        attachmentsLinks := attachmentsLinks + [attachment.value.link];
      }
      assert attachmentsIds[..i + 1][..i] == attachmentsIds[..i];
      i := i + 1;
    }
    assert attachmentsIds[..i] == attachmentsIds;
  }

  /** Resolving a concatenation resolves each part: the order of the input is kept. */
  lemma {:induction false} AttachmentLinksAppend(media: map<int, Media>, a: seq<int>, b: seq<int>)
    ensures AttachmentLinks(media, a + b) == AttachmentLinks(media, a) + AttachmentLinks(media, b)
    decreases |b|
  {
    if |b| == 0 {
      assert a + b == a;
    } else {
      var b' := b[..|b| - 1];
      assert (a + b)[..|a + b| - 1] == a + b';
      AttachmentLinksAppend(media, a, b');
    }
  }

  /** The link list is never longer than the id list; no id resolves to two links. */
  lemma {:induction false} AttachmentLinksLength(media: map<int, Media>, ids: seq<int>)
    ensures |AttachmentLinks(media, ids)| <= |ids|
    ensures (forall id :: id in ids ==> id in media) ==> |AttachmentLinks(media, ids)| == |ids|
    decreases |ids|
  {
    if |ids| > 0 {
      var init := ids[..|ids| - 1];
      assert forall id :: id in init ==> id in ids;
      AttachmentLinksLength(media, init);
    }
  }

  /** A link is returned exactly when some listed id names a media row with that link. */
  lemma {:induction false} AttachmentLinksMembers(media: map<int, Media>, ids: seq<int>, link: string)
    ensures link in AttachmentLinks(media, ids) <==> exists id :: id in ids && id in media && media[id].link == link
    decreases |ids|
  {
    if |ids| > 0 {
      var init := ids[..|ids| - 1];
      var last := ids[|ids| - 1];
      AttachmentLinksMembers(media, init, link);
      assert ids == init + [last];
      if exists id :: id in ids && id in media && media[id].link == link {
        var id :| id in ids && id in media && media[id].link == link;
        if id != last {
          assert id in init;
        }
      }
    }
  }

  /** Single ids: a stored id gives its link, an unknown id is skipped, a repeated id repeats its link. */
  lemma AttachmentLinksOfSingletons(media: map<int, Media>, id: int)
    ensures AttachmentLinks(media, []) == []
    ensures id !in media ==> AttachmentLinks(media, [id]) == []
    ensures id in media ==> AttachmentLinks(media, [id]) == [media[id].link]
    ensures id in media ==> AttachmentLinks(media, [id, id]) == [media[id].link, media[id].link]
  {
    assert [id, id][..1] == [id];
  }

  const ImagesPath := "/api/images/"

  /** The URL prefix that every media link of a server shares. */
  function ImagesUrl(scheme: string, host: string): string
  {
    scheme + "://" + host + ImagesPath
  }

  /** The link `add_media` stores: `'{0}://{1}/api/images/{2}'`. */
  function MediaLink(scheme: string, host: string, fileName: string): (r: string)
    ensures |r| == |ImagesUrl(scheme, host)| + |fileName|
    ensures r[..|ImagesUrl(scheme, host)|] == ImagesUrl(scheme, host)
    ensures r[|ImagesUrl(scheme, host)|..] == fileName
  {
    ImagesUrl(scheme, host) + fileName
  }

  /** The file name a link of this server names, if it is one. */
  function LinkFileName(link: string, scheme: string, host: string): Option<string>
  {
    var prefix := ImagesUrl(scheme, host);
    if |prefix| <= |link| && link[..|prefix|] == prefix then Some(link[|prefix|..]) else None
  }

  /** A stored link leads back to the file name it was built from. */
  lemma LinkNamesItsFile(scheme: string, host: string, fileName: string)
    ensures LinkFileName(MediaLink(scheme, host, fileName), scheme, host) == Some(fileName)
  {
  }

  /**
   * The effect of `add_media`'s flush: an uploader that is not a stored user
   * makes it raise; otherwise the row gets the next id of the sequence.
   */
  function AddMediaOutcome(d: Db, fileName: string, user: Option<User>, scheme: string, host: string): (res: (Db, Result<int, Error>))
    requires Valid(d)
    ensures Valid(res.0)
    ensures res.1.Ok? <==> (user.Some? ==> user.value.id in d.users)
    ensures res.1.Err? ==> res.0 == d
    ensures res.1.Ok? ==>
      && res.1.value == d.nextMediaId
      && res.1.value !in d.media
      && res.0 == d.(media := d.media[res.1.value := Media(res.1.value, fileName,
                                                         if user.Some? then Some(user.value.id) else None,
                                                         MediaLink(scheme, host, fileName))],
                     nextMediaId := d.nextMediaId + 1)
  {
    if user.Some? && user.value.id !in d.users then (d, Err(IntegrityError))
    else
      var m := Media(d.nextMediaId, fileName, if user.Some? then Some(user.value.id) else None,
                     MediaLink(scheme, host, fileName));
      (d.(media := d.media[m.id := m], nextMediaId := d.nextMediaId + 1), Ok(m.id))
  }

  /** `add_media`: builds the row with its link, adds it, flushes, returns the id. */
  method AddMedia(session: Session, fileName: string, user: Option<User>, scheme: string, host: string) returns (r: Result<int, Error>)
    requires Valid(session.State())
    modifies session
    ensures (session.State(), r) == AddMediaOutcome(old(session.State()), fileName, user, scheme, host)
  {
    if user.Some? && user.value.id !in session.users {
      return Err(IntegrityError);
    }
    var newMedia := Media(session.nextMediaId, fileName, if user.Some? then Some(user.value.id) else None,
                          MediaLink(scheme, host, fileName));
    session.media := session.media[newMedia.id := newMedia];
    session.nextMediaId := session.nextMediaId + 1;
    r := Ok(newMedia.id);
  }

  /** The first media of an empty store gets id 1. */
  lemma FirstMediaGetsIdOne(fileName: string, scheme: string, host: string)
    ensures AddMediaOutcome(Empty(), fileName, None, scheme, host).1 == Ok(1)
  {
  }
}
