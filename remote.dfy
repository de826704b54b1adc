/** The target playlist as the streaming service holds it, and the calls that
    change it.  The service itself is outside the model: each call here states
    only its effect on the playlist's tracks, description and cover. */
module Remote {
  import opened TrackLists

  class TargetPlaylist {
    /** The track ids of the playlist, in playlist order. */
    var tracks: seq<TrackId>
    /** The playlist's description text. */
    var description: string
    /** The address of the album image the playlist cover was last made from. */
    var cover: string

    constructor (tracks: seq<TrackId>, description: string, cover: string)
      ensures this.tracks == tracks
      ensures this.description == description
      ensures this.cover == cover
    {
      this.tracks := tracks;
      this.description := description;
      this.cover := cover;
    }

    /** `user_playlist_remove_all_occurrences_of_tracks`: every occurrence of
        every id of the batch leaves the playlist; the rest keeps its order. */
    method RemoveAllOccurrences(batch: seq<TrackId>)
      modifies this
      ensures tracks == Without(old(tracks), batch)
      ensures description == old(description) && cover == old(cover)
    {
      tracks := Without(tracks, batch);
    }

    /** `user_playlist_add_tracks`: the batch is appended at the end. */
    method AddTracks(batch: seq<TrackId>)
      modifies this
      ensures tracks == old(tracks) + batch
      ensures description == old(description) && cover == old(cover)
    {
      tracks := tracks + batch;
    }

    /** `playlist_change_details(description=...)`. */
    method ChangeDescription(text: string)
      modifies this
      ensures description == text
      ensures tracks == old(tracks) && cover == old(cover)
    {
      description := text;
    }

    /** `playlist_upload_cover_image` with the image downloaded from `url`. */
    method UploadCover(url: string)
      modifies this
      ensures cover == url
      ensures tracks == old(tracks) && description == old(description)
    {
      cover := url;
    }
  }
}
