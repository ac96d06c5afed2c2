/** The `videos` table and the video-generation lifecycle of
    server/controllers/videoController.js.  A record is created `pending`; the
    background generation task sets it `processing`, then `completed` (with a
    URL derived from the id and a duration of 30 seconds) or `failed`.  The
    external text-completion call is reduced to its outcome, `succeeded`. */
module Videos {
  import opened Base
  import Table

  datatype Status = Pending | Processing | Completed | Failed {
    /** The status as the API spells it. */
    function Name(): string {
      match this
      case Pending => "pending"
      case Processing => "processing"
      case Completed => "completed"
      case Failed => "failed"
    }

    predicate Terminal() {
      Completed? || Failed?
    }
  }

  /** A row of `videos`; `video_url` and `duration` are nullable columns. */
  datatype Video = Video(
    user_id: nat,
    title: string,
    prompt: string,
    status: Status,
    video_url: Option<string>,
    duration: Option<nat>,
    created_at: nat)

  /** The body of the 201 answer to a submission. */
  datatype Submitted = Submitted(id: nat, user_id: nat, title: string, prompt: string, status: Status)

  /** Length in seconds recorded for every generated video. */
  const GeneratedDuration: nat := 30

  // ---------------------------------------------------------------------
  // The generated URL, `/videos/<id>_generated.mp4`

  const UrlPrefix := "/videos/"
  const UrlSuffix := "_generated.mp4"

  function VideoUrl(id: nat): (url: string)
    ensures |url| == |UrlPrefix| + |Decimal(id)| + |UrlSuffix|
    ensures url[..|UrlPrefix|] == UrlPrefix && url[|url| - |UrlSuffix|..] == UrlSuffix
  {
    UrlPrefix + Decimal(id) + UrlSuffix
  }

  /** Different videos are given different URLs. */
  lemma VideoUrlInjective(a: nat, b: nat)
    requires VideoUrl(a) == VideoUrl(b)
    ensures a == b
  {
    var u := VideoUrl(a);
    assert Decimal(a) == u[|UrlPrefix|..|u| - |UrlSuffix|];
    assert Decimal(b) == u[|UrlPrefix|..|u| - |UrlSuffix|];
    DecimalRoundTrip(a);
    DecimalRoundTrip(b);
  }

  // ---------------------------------------------------------------------
  // The lifecycle

  /** The transitions the generation task makes. */
  predicate Step(from: Status, to: Status) {
    (from == Pending && to == Processing) ||
    (from == Processing && to.Terminal())
  }

  /** The record after the generation task ran on it: `processing` first,
      then `completed` with the generated URL and duration, or `failed` with
      URL and duration left as they were. */
  function Generated(v: Video, id: nat, succeeded: bool): (w: Video)
    ensures w.status.Terminal() && (w.status == Completed <==> succeeded)
    ensures succeeded ==> w.video_url == Some(VideoUrl(id)) && w.duration == Some(GeneratedDuration)
    ensures !succeeded ==> w.video_url == v.video_url && w.duration == v.duration
    ensures w.user_id == v.user_id && w.title == v.title && w.prompt == v.prompt
    ensures w.created_at == v.created_at
  {
    var p := v.(status := Processing);
    if succeeded then p.(status := Completed, video_url := Some(VideoUrl(id)), duration := Some(GeneratedDuration))
    else p.(status := Failed)
  }

  /** The invariant the design intends (not enforced by the table: the
      update handler may write any status and URL). */
  predicate UrlIffCompleted(v: Video) {
    (v.video_url.Some? <==> v.status == Completed) && (v.duration.Some? <==> v.status == Completed)
  }

  /** A submitted record goes pending -> processing -> completed or failed,
      and ends with a URL and a duration exactly when it completed. */
  lemma GenerationLifecycle(v: Video, id: nat, succeeded: bool)
    requires v.status == Pending && v.video_url == None && v.duration == None
    ensures Step(v.status, Processing) && Step(Processing, Generated(v, id, succeeded).status)
    ensures UrlIffCompleted(v) && UrlIffCompleted(Generated(v, id, succeeded))
  {
  }

  // ---------------------------------------------------------------------
  // Queries

  /** The owner column, which the per-user listing filters on. */
  function Owner(v: Video): nat {
    v.user_id
  }

  /** The ORDER BY key. */
  function CreatedAt(v: Video): nat {
    v.created_at
  }

  // ---------------------------------------------------------------------
  // The table

  class VideoTable {
    var rows: map<nat, Video>
    /** The next AUTO_INCREMENT id. */
    var nextId: nat
    /** The database clock that stamps `created_at`. */
    var clock: nat

    ghost predicate Valid()
      reads this
    {
      1 <= nextId &&
      forall id :: id in rows ==> 1 <= id < nextId && rows[id].created_at <= clock
    }

    constructor ()
      ensures Valid() && rows == map[] && nextId == 1 && clock == 0
    {
      rows, nextId, clock := map[], 1, 0;
    }

    /** createVideo: INSERT a `pending` row under a fresh id and answer with
        that id; `elapsed` is the time since the previous insert. */
    method CreateVideo(user_id: nat, title: string, prompt: string, elapsed: nat) returns (r: Submitted)
      requires Valid()
      modifies this
      ensures Valid()
      ensures r.id !in old(rows) && r.id == old(nextId)
      ensures clock == old(clock) + elapsed
      ensures rows == old(rows)[r.id := Video(user_id, title, prompt, Pending, None, None, clock)]
      ensures r == Submitted(r.id, user_id, title, prompt, Pending)
      ensures Table.Find(rows, r.id) == Some(Video(user_id, title, prompt, Pending, None, None, clock))
    {
      clock := clock + elapsed;
      var id := nextId;
      rows := rows[id := Video(user_id, title, prompt, Pending, None, None, clock)];
      nextId := nextId + 1;
      r := Submitted(id, user_id, title, prompt, Pending);
    }

    /** First step of generation: `UPDATE videos SET status = 'processing'`.
        An id with no row is left alone (the UPDATE matches nothing). */
    method MarkProcessing(id: nat)
      requires Valid()
      modifies this`rows
      ensures Valid()
      ensures rows == if id in old(rows) then old(rows)[id := old(rows)[id].(status := Processing)] else old(rows)
    {
      if id in rows {
        rows := rows[id := rows[id].(status := Processing)];
      }
    }

    /** The success step: status, URL and duration in one UPDATE. */
    method MarkCompleted(id: nat)
      requires Valid()
      modifies this`rows
      ensures Valid()
      ensures rows == if id in old(rows)
        then old(rows)[id := old(rows)[id].(status := Completed, video_url := Some(VideoUrl(id)), duration := Some(GeneratedDuration))]
        else old(rows)
    {
      if id in rows {
        rows := rows[id := rows[id].(status := Completed, video_url := Some(VideoUrl(id)), duration := Some(GeneratedDuration))];
      }
    }

    /** The failure step: only the status is written. */
    method MarkFailed(id: nat)
      requires Valid()
      modifies this`rows
      ensures Valid()
      ensures rows == if id in old(rows) then old(rows)[id := old(rows)[id].(status := Failed)] else old(rows)
    {
      if id in rows {
        rows := rows[id := rows[id].(status := Failed)];
      }
    }

    /** generateVideoAsync, run to its end: set `processing`, call the
        completion service (outcome `succeeded`), then complete or fail. */
    method GenerateVideo(id: nat, succeeded: bool)
      requires Valid()
      modifies this`rows
      ensures Valid()
      ensures rows == if id in old(rows) then old(rows)[id := Generated(old(rows)[id], id, succeeded)] else old(rows)
      ensures id in rows ==> rows[id].status.Terminal()
    {
      MarkProcessing(id);
      if succeeded {
        MarkCompleted(id);
      } else {
        MarkFailed(id);
      }
    }

    /** createVideo as a whole: the INSERT, then the generation task it
        starts for the new id on every submission.  The answer is the
        pending record; the row ends completed (with its URL and duration)
        or failed, according to `succeeded`. */
    method SubmitVideo(user_id: nat, title: string, prompt: string, elapsed: nat, succeeded: bool)
      returns (r: Submitted)
      requires Valid()
      modifies this
      ensures Valid()
      ensures r.id !in old(rows) && r.id == old(nextId)
      ensures clock == old(clock) + elapsed
      ensures r == Submitted(r.id, user_id, title, prompt, Pending)
      ensures rows == old(rows)[r.id := Generated(Video(user_id, title, prompt, Pending, None, None, clock), r.id, succeeded)]
      ensures rows[r.id].status.Terminal() && (rows[r.id].status == Completed <==> succeeded)
      ensures UrlIffCompleted(rows[r.id])
    {
      r := CreateVideo(user_id, title, prompt, elapsed);
      GenerateVideo(r.id, succeeded);
    }

    /** updateVideo: overwrite title, prompt, status and URL of one row;
        owner, duration and stamp stay. */
    method UpdateVideo(id: nat, title: string, prompt: string, status: Status, video_url: Option<string>)
      returns (o: Outcome)
      requires Valid()
      modifies this`rows
      ensures Valid()
      ensures o == NotFound <==> id !in old(rows)
      ensures rows == if id in old(rows)
        then old(rows)[id := old(rows)[id].(title := title, prompt := prompt, status := status, video_url := video_url)]
        else old(rows)
    {
      if id in rows {
        rows := rows[id := rows[id].(title := title, prompt := prompt, status := status, video_url := video_url)];
        o := Ok;
      } else {
        o := NotFound;
      }
    }

    /** deleteVideo: remove exactly that row. */
    method DeleteVideo(id: nat) returns (o: Outcome)
      requires Valid()
      modifies this`rows
      ensures Valid()
      ensures o == NotFound <==> id !in old(rows)
      ensures rows == old(rows) - {id}
      ensures Table.Find(rows, id) == None
    {
      o := if id in rows then Ok else NotFound;
      rows := rows - {id};
    }
  }
}
