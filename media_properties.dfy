/**
 * What `list_files_in_directory` and `upload_blobs` do with the media folder: every walked
 * file except ".info" sidecars is listed, and each is uploaded under its path below the folder.
 */
module MediaProperties {
  import opened Wrappers
  import opened HttpClient
  import opened Migrator

  /** ".info" holds no '/', so a joined path is a sidecar exactly when the file name is. */
  lemma JoinedInfo(root: string, name: string)
    ensures EndsWith(JoinPath(root, name), InfoSuffix) <==> EndsWith(name, InfoSuffix)
  {
    var p := JoinPath(root, name);
    assert p[|root| + 1..] == name;
    if |name| < |InfoSuffix| {
      assert p[|p| - |name| - 1] == '/';
    } else {
      assert p[|p| - 5..] == name[|name| - 5..];
    }
  }

  /** A path is kept from `names` exactly when it joins `root` to one of them that is no sidecar. */
  lemma {:induction false} KeptFilesMembership(root: string, names: seq<string>, p: string)
    ensures p in KeptFiles(root, names)
        <==> exists j :: 0 <= j < |names| && !EndsWith(names[j], InfoSuffix) && p == JoinPath(root, names[j])
  {
    if names != [] {
      KeptFilesMembership(root, names[1..], p);
      if exists j :: 0 <= j < |names| && !EndsWith(names[j], InfoSuffix) && p == JoinPath(root, names[j]) {
        var j :| 0 <= j < |names| && !EndsWith(names[j], InfoSuffix) && p == JoinPath(root, names[j]);
        if j > 0 {
          assert names[1..][j - 1] == names[j];
        }
      }
      if p in KeptFiles(root, names[1..]) {
        var j :| 0 <= j < |names[1..]| && !EndsWith(names[1..][j], InfoSuffix) && p == JoinPath(root, names[1..][j]);
        assert names[j + 1] == names[1..][j];
      }
    }
  }

  /**
   * `list_files_in_directory` lists a path exactly when the walk visited a directory holding
   * a file of that name that is not a ".info" sidecar.
   */
  lemma {:induction false} MediaFilesMembership(top: string, walk: seq<WalkEntry>, p: string)
    ensures p in MediaFiles(top, walk)
        <==> exists i, j :: 0 <= i < |walk| && 0 <= j < |walk[i].files|
                         && !EndsWith(walk[i].files[j], InfoSuffix) && p == JoinPath(Root(top, walk[i]), walk[i].files[j])
  {
    if walk != [] {
      KeptFilesMembership(Root(top, walk[0]), walk[0].files, p);
      MediaFilesMembership(top, walk[1..], p);
      if exists i, j :: 0 <= i < |walk| && 0 <= j < |walk[i].files|
                      && !EndsWith(walk[i].files[j], InfoSuffix) && p == JoinPath(Root(top, walk[i]), walk[i].files[j]) {
        var i, j :| 0 <= i < |walk| && 0 <= j < |walk[i].files|
                  && !EndsWith(walk[i].files[j], InfoSuffix) && p == JoinPath(Root(top, walk[i]), walk[i].files[j]);
        if i > 0 {
          assert walk[1..][i - 1] == walk[i];
        }
      }
      if p in MediaFiles(top, walk[1..]) {
        var i, j :| 0 <= i < |walk[1..]| && 0 <= j < |walk[1..][i].files|
                  && !EndsWith(walk[1..][i].files[j], InfoSuffix) && p == JoinPath(Root(top, walk[1..][i]), walk[1..][i].files[j]);
        assert walk[i + 1] == walk[1..][i];
      }
    }
  }

  /** No ".info" sidecar is ever listed. */
  lemma NoSidecarListed(top: string, walk: seq<WalkEntry>, p: string)
    requires p in MediaFiles(top, walk)
    ensures !EndsWith(p, InfoSuffix)
  {
    MediaFilesMembership(top, walk, p);
    var i, j :| 0 <= i < |walk| && 0 <= j < |walk[i].files|
              && !EndsWith(walk[i].files[j], InfoSuffix) && p == JoinPath(Root(top, walk[i]), walk[i].files[j]);
    JoinedInfo(Root(top, walk[i]), walk[i].files[j]);
  }

  /** The blob name of a walked file: its path below the media folder. */
  function BlobPath(e: WalkEntry, name: string): string
  {
    if e.subdir == "" then name else JoinPath(e.subdir, name)
  }

  /** The path of a walked file, taken relative to the walked folder, is its blob name. */
  lemma RelPathOfWalked(media: string, e: WalkEntry, name: string)
    ensures RelPath(JoinPath(Root(media, e), name), media) == BlobPath(e, name)
  {
    var p := JoinPath(Root(media, e), name);
    assert p[..|media| + 1] == media + "/";
    assert p[|media| + 1..] == BlobPath(e, name);
  }

  /**
   * When the media folder exists and the SAS URL is obtained: one POST is sent, and one
   * upload is planned per listed file, into that container, under its path below the folder.
   */
  lemma UploadsOfWalk(baseUrl: string, net: Network, media: string, walk: seq<WalkEntry>)
    requires UploadPlan(baseUrl, net, media, true, walk).0.Ok?
    ensures var (r, net1) := UploadPlan(baseUrl, net, media, true, walk);
      && net1.sent == net.sent + [Request(POST, ResolveUrl(baseUrl, MediaSecretsPath), None)]
      && |r.value| == |MediaFiles(media, walk)|
      && forall u :: u in r.value ==>
           && u.container == StorageSasUrl(baseUrl, net).0.value
           && exists i, j :: 0 <= i < |walk| && 0 <= j < |walk[i].files|
                && !EndsWith(walk[i].files[j], InfoSuffix)
                && u.filePath == JoinPath(Root(media, walk[i]), walk[i].files[j])
                && u.blobName == BlobPath(walk[i], walk[i].files[j])
  {
    var us := UploadPlan(baseUrl, net, media, true, walk).0.value;
    var files := MediaFiles(media, walk);
    forall u | u in us
      ensures exists i, j :: 0 <= i < |walk| && 0 <= j < |walk[i].files|
                && !EndsWith(walk[i].files[j], InfoSuffix)
                && u.filePath == JoinPath(Root(media, walk[i]), walk[i].files[j])
                && u.blobName == BlobPath(walk[i], walk[i].files[j])
    {
      var k :| 0 <= k < |us| && us[k] == u;
      MediaFilesMembership(media, walk, files[k]);
      var i, j :| 0 <= i < |walk| && 0 <= j < |walk[i].files|
                && !EndsWith(walk[i].files[j], InfoSuffix) && files[k] == JoinPath(Root(media, walk[i]), walk[i].files[j]);
      RelPathOfWalked(media, walk[i], walk[i].files[j]);
    }
  }
}
