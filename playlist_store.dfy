/** The playlist store: the list of playlists, the playlist shown in detail,
    the loading flag and the last error, and how each action changes them.
    Each network call is an argument giving its outcome. */
module PlaylistStore {
  import opened Wrappers
  import opened Seqs

  datatype PlaylistRecord = PlaylistRecord(id: string, name: string, description: string)

  /** A response body: `data.data` when present, else the body itself is used. */
  datatype Envelope = Envelope(inner: Option<PlaylistRecord>, whole: PlaylistRecord)

  /** `response.data?.data || response.data`. */
  function Payload(e: Envelope): PlaylistRecord {
    e.inner.GetOr(e.whole)
  }

  /** What `response.data?.data` holds for the list request. */
  datatype ListPayload = ArrayOf(items: seq<PlaylistRecord>) | NotAnArray | Missing

  /** A failed request: the server's `message` and `error` fields and the
      error's own `message`, each `None` when absent. */
  datatype HttpError = HttpError(responseMessage: Option<string>, responseError: Option<string>, message: Option<string>)

  datatype Outcome<T> = Succeeded(value: T) | Failed(error: HttpError)

  /** What `removeProblemFromPlaylist` was given: one id or a list of them. */
  datatype ProblemIds = One(id: string) | Many(ids: seq<string>)

  predicate Truthy(s: Option<string>) {
    s.Some? && s.value != []
  }

  /** `handleError`'s message: the server's message, else its error, else the
      error's own message, else the default; the first non-empty one wins. */
  function ErrorMessage(e: HttpError, default: string): (m: string)
    ensures Truthy(e.responseMessage) ==> m == e.responseMessage.value
    ensures !Truthy(e.responseMessage) && Truthy(e.responseError) ==> m == e.responseError.value
    ensures !Truthy(e.responseMessage) && !Truthy(e.responseError) && Truthy(e.message) ==> m == e.message.value
    ensures !Truthy(e.responseMessage) && !Truthy(e.responseError) && !Truthy(e.message) ==> m == default
    ensures default != [] ==> m != []
  {
    if Truthy(e.responseMessage) then e.responseMessage.value
    else if Truthy(e.responseError) then e.responseError.value
    else if Truthy(e.message) then e.message.value
    else default
  }

  /** The list stored by `getAllPlaylists`: the items of an array, and `[]`
      for anything else. */
  function StoredList(p: ListPayload): (r: seq<PlaylistRecord>)
    ensures p.ArrayOf? ==> r == p.items
    ensures !p.ArrayOf? ==> r == []
  {
    if p.ArrayOf? then p.items else []
  }

  /** The playlists without the ones carrying `id`, in their order. */
  function WithoutId(ps: seq<PlaylistRecord>, id: string): (r: seq<PlaylistRecord>)
    ensures forall p :: p in r <==> p in ps && p.id != id
    ensures IsSubsequence(r, ps)
    ensures |r| <= |ps|
    ensures (forall i :: 0 <= i < |ps| ==> ps[i].id != id) ==> r == ps
  {
    if ps == [] then []
    else if ps[0].id == id then WithoutId(ps[1..], id)
    else [ps[0]] + WithoutId(ps[1..], id)
  }

  /** The ids `removeProblemFromPlaylist` sends: a single id wrapped, a list as is. */
  function ProblemIdList(ids: ProblemIds): (r: seq<string>)
    ensures ids.One? ==> r == [ids.id]
    ensures ids.Many? ==> r == ids.ids
  {
    match ids
    case One(id) => [id]
    case Many(list) => list
  }

  /** `currentPlaylist?.id === playlistId`: that playlist is the one shown. */
  predicate Shows(current: Option<PlaylistRecord>, id: string) {
    current.Some? && current.value.id == id
  }

  /** The `error` left by `getAllPlaylists`: cleared, or its own failure message. */
  function ListError(list: Outcome<ListPayload>): Option<string> {
    if list.Succeeded? then None else Some(ErrorMessage(list.error, "Failed to fetch playlists"))
  }

  class Store {
    var playlist: seq<PlaylistRecord>
    var currentPlaylist: Option<PlaylistRecord>
    var isLoading: bool
    var error: Option<string>

    constructor ()
      ensures playlist == [] && currentPlaylist == None && !isLoading && error == None
    {
      playlist := [];
      currentPlaylist := None;
      isLoading := false;
      error := None;
    }

    /** `handleError`: stops loading and records the message it returns. */
    method HandleError(e: HttpError, default: string) returns (message: string)
      modifies this
      ensures message == ErrorMessage(e, default)
      ensures !isLoading && error == Some(message)
      ensures playlist == old(playlist) && currentPlaylist == old(currentPlaylist)
    {
      message := ErrorMessage(e, default);
      isLoading := false;
      error := Some(message);
    }

    /** `createPlaylist`: a created playlist goes at the end of the list;
        a failure is recorded and rethrown. */
    method CreatePlaylist(response: Outcome<Envelope>) returns (thrown: Option<HttpError>)
      modifies this
      ensures response.Succeeded? ==>
                playlist == old(playlist) + [Payload(response.value)] && !isLoading && error == None && thrown == None
      ensures response.Failed? ==>
                playlist == old(playlist) && !isLoading
                && error == Some(ErrorMessage(response.error, "Failed to create playlist"))
                && thrown == Some(response.error)
      ensures currentPlaylist == old(currentPlaylist)
    {
      isLoading, error := true, None;
      match response
      case Succeeded(body) =>
        playlist := playlist + [Payload(body)];
        isLoading, error := false, None;
        thrown := None;
      case Failed(e) =>
        var _ := HandleError(e, "Failed to create playlist");
        thrown := Some(e);
    }

    /** `getAllPlaylists`: stores the fetched array, or `[]` for anything
        else; a failure is recorded and not rethrown. */
    method GetAllPlaylists(response: Outcome<ListPayload>)
      modifies this
      ensures response.Succeeded? ==> playlist == StoredList(response.value) && error == None
      ensures response.Failed? ==>
                playlist == old(playlist) && error == Some(ErrorMessage(response.error, "Failed to fetch playlists"))
      ensures !isLoading && currentPlaylist == old(currentPlaylist)
    {
      isLoading, error := true, None;
      match response
      case Succeeded(p) =>
        playlist := StoredList(p);
        isLoading, error := false, None;
      case Failed(e) =>
        var _ := HandleError(e, "Failed to fetch playlists");
    }

    /** `getPlaylistDetails`: the fetched playlist becomes the current one. */
    method GetPlaylistDetails(response: Outcome<Envelope>) returns (thrown: Option<HttpError>)
      modifies this
      ensures response.Succeeded? ==> currentPlaylist == Some(Payload(response.value)) && error == None && thrown == None
      ensures response.Failed? ==>
                currentPlaylist == old(currentPlaylist) && thrown == Some(response.error)
                && error == Some(ErrorMessage(response.error, "Failed to fetch playlist details"))
      ensures !isLoading && playlist == old(playlist)
    {
      isLoading, error := true, None;
      match response
      case Succeeded(body) =>
        currentPlaylist := Some(Payload(body));
        isLoading, error := false, None;
        thrown := None;
      case Failed(e) =>
        var _ := HandleError(e, "Failed to fetch playlist details");
        thrown := Some(e);
    }

    /** `refreshPlaylistData`: the details are fetched again only for the
        playlist currently shown; the list is fetched again unless that
        detail request failed. */
    method RefreshPlaylistData(playlistId: string, details: Outcome<Envelope>, list: Outcome<ListPayload>)
      returns (fetchedDetails: bool, fetchedList: bool, thrown: Option<HttpError>)
      modifies this
      ensures fetchedDetails <==> Shows(old(currentPlaylist), playlistId)
      ensures thrown.Some? <==> fetchedDetails && details.Failed?
      ensures thrown.Some? ==> thrown == Some(details.error)
      ensures fetchedList <==> thrown.None?
      ensures !fetchedDetails ==> currentPlaylist == old(currentPlaylist)
      ensures fetchedDetails && details.Succeeded? ==> currentPlaylist == Some(Payload(details.value))
      ensures fetchedDetails && details.Failed? ==>
                currentPlaylist == old(currentPlaylist)
                && error == Some(ErrorMessage(details.error, "Failed to fetch playlist details"))
      ensures fetchedList ==> error == ListError(list)
      ensures fetchedList && list.Succeeded? ==> playlist == StoredList(list.value)
      ensures !fetchedList || list.Failed? ==> playlist == old(playlist)
      ensures fetchedDetails || fetchedList ==> !isLoading
    {
      fetchedDetails, fetchedList, thrown := false, false, None;
      if currentPlaylist.Some? && currentPlaylist.value.id == playlistId {
        fetchedDetails := true;
        thrown := GetPlaylistDetails(details);
        if thrown.Some? {
          return;
        }
      }
      GetAllPlaylists(list);
      fetchedList := true;
    }

    /** `addProblemToPlaylist`: after the add request, a refresh; a failure
        of either is recorded and rethrown. */
    method AddProblemToPlaylist(playlistId: string, post: Outcome<()>, details: Outcome<Envelope>,
                                list: Outcome<ListPayload>) returns (thrown: Option<HttpError>)
      modifies this
      ensures post.Failed? ==>
                thrown == Some(post.error) && playlist == old(playlist) && currentPlaylist == old(currentPlaylist)
                && error == Some(ErrorMessage(post.error, "Failed to add problem to playlist"))
      ensures thrown.Some? ==> error == Some(ErrorMessage(thrown.value, "Failed to add problem to playlist"))
      ensures post.Succeeded? ==> (thrown.Some? <==> Shows(old(currentPlaylist), playlistId) && details.Failed?)
      ensures post.Succeeded? && thrown.Some? ==>
                thrown == Some(details.error) && playlist == old(playlist) && currentPlaylist == old(currentPlaylist)
                && error == Some(ErrorMessage(details.error, "Failed to add problem to playlist"))
      ensures post.Succeeded? && thrown.None? ==>
                && (Shows(old(currentPlaylist), playlistId) ==>
                      details.Succeeded? && currentPlaylist == Some(Payload(details.value)))
                && (!Shows(old(currentPlaylist), playlistId) ==> currentPlaylist == old(currentPlaylist))
                && playlist == (if list.Succeeded? then StoredList(list.value) else old(playlist))
                && error == ListError(list)
      ensures !isLoading
    {
      isLoading, error := true, None;
      if post.Failed? {
        var _ := HandleError(post.error, "Failed to add problem to playlist");
        return Some(post.error);
      }
      var _, _, refreshError := RefreshPlaylistData(playlistId, details, list);
      if refreshError.Some? {
        var _ := HandleError(refreshError.value, "Failed to add problem to playlist");
        return refreshError;
      }
      isLoading := false;
      thrown := None;
    }

    /** `removeProblemFromPlaylist`: sends the ids as a list, then refreshes;
        a failure of either is recorded and rethrown. */
    method RemoveProblemFromPlaylist(playlistId: string, problemIds: ProblemIds, delete: Outcome<()>,
                                     details: Outcome<Envelope>, list: Outcome<ListPayload>)
      returns (sent: seq<string>, thrown: Option<HttpError>)
      modifies this
      ensures sent == ProblemIdList(problemIds)
      ensures delete.Failed? ==>
                thrown == Some(delete.error) && playlist == old(playlist) && currentPlaylist == old(currentPlaylist)
                && error == Some(ErrorMessage(delete.error, "Failed to remove problem from playlist"))
      ensures thrown.Some? ==> error == Some(ErrorMessage(thrown.value, "Failed to remove problem from playlist"))
      ensures delete.Succeeded? ==> (thrown.Some? <==> Shows(old(currentPlaylist), playlistId) && details.Failed?)
      ensures delete.Succeeded? && thrown.Some? ==>
                thrown == Some(details.error) && playlist == old(playlist) && currentPlaylist == old(currentPlaylist)
                && error == Some(ErrorMessage(details.error, "Failed to remove problem from playlist"))
      ensures delete.Succeeded? && thrown.None? ==>
                && (Shows(old(currentPlaylist), playlistId) ==>
                      details.Succeeded? && currentPlaylist == Some(Payload(details.value)))
                && (!Shows(old(currentPlaylist), playlistId) ==> currentPlaylist == old(currentPlaylist))
                && playlist == (if list.Succeeded? then StoredList(list.value) else old(playlist))
                && error == ListError(list)
      ensures !isLoading
    {
      isLoading, error := true, None;
      sent := ProblemIdList(problemIds);
      if delete.Failed? {
        var _ := HandleError(delete.error, "Failed to remove problem from playlist");
        return sent, Some(delete.error);
      }
      var _, _, refreshError := RefreshPlaylistData(playlistId, details, list);
      if refreshError.Some? {
        var _ := HandleError(refreshError.value, "Failed to remove problem from playlist");
        return sent, refreshError;
      }
      isLoading := false;
      thrown := None;
    }

    /** `deletePlaylist`: drops exactly the playlists with that id, keeping
        the order of the rest, and forgets the current playlist if it is the
        one deleted; a failure is rethrown as a new error with the message. */
    method DeletePlaylist(playlistId: string, response: Outcome<()>) returns (thrown: Option<string>)
      modifies this
      ensures response.Succeeded? ==>
                playlist == WithoutId(old(playlist), playlistId) && error == None && thrown == None
                && isLoading == old(isLoading)
                && (old(currentPlaylist).Some? && old(currentPlaylist).value.id == playlistId ==> currentPlaylist == None)
                && (old(currentPlaylist).None? || old(currentPlaylist).value.id != playlistId ==>
                      currentPlaylist == old(currentPlaylist))
      ensures response.Failed? ==>
                var m := ErrorMessage(response.error, "Failed to delete playlist");
                playlist == old(playlist) && currentPlaylist == old(currentPlaylist)
                && !isLoading && error == Some(m) && thrown == Some(m)
    {
      error := None;
      match response
      case Succeeded(_) =>
        playlist := WithoutId(playlist, playlistId);
        if currentPlaylist.Some? && currentPlaylist.value.id == playlistId {
          currentPlaylist := None;
        }
        error := None;
        thrown := None;
      case Failed(e) =>
        var m := HandleError(e, "Failed to delete playlist");
        thrown := Some(m);
    }
  }

  /** Creating and then deleting the new playlist restores the list, when
      its id was not taken. */
  lemma CreateThenDelete(ps: seq<PlaylistRecord>, p: PlaylistRecord)
    requires forall i :: 0 <= i < |ps| ==> ps[i].id != p.id
    ensures WithoutId(ps + [p], p.id) == ps
  {
    WithoutIdAppend(ps, p, p.id);
  }

  /** Removal keeps every copy of a playlist with another id and no copy of
      one with this id. */
  lemma {:induction false} WithoutIdCounts(ps: seq<PlaylistRecord>, id: string, p: PlaylistRecord)
    ensures multiset(WithoutId(ps, id))[p] == if p.id != id then multiset(ps)[p] else 0
  {
    if ps != [] {
      assert ps == [ps[0]] + ps[1..];
      WithoutIdCounts(ps[1..], id, p);
    }
  }

  lemma {:induction false} WithoutIdAppend(ps: seq<PlaylistRecord>, p: PlaylistRecord, id: string)
    ensures WithoutId(ps + [p], id) == WithoutId(ps, id) + (if p.id == id then [] else [p])
  {
    if ps != [] {
      assert (ps + [p])[1..] == ps[1..] + [p];
      WithoutIdAppend(ps[1..], p, id);
    }
  }
}
