/**
 * Where one request's artifacts live: the saved upload, the transcoded copy and the
 * analyzer's annotated output, all named from one short identifier.
 */
module Naming {
  import opened Wrappers
  import opened Text

  const UploadFolder: string := "static/uploads"
  const OutputFolder: string := "static/outputs"

  /** `os.path.join(folder, name)` for a relative `name`, with `/` as separator. */
  function Join(folder: string, name: string): string {
    folder + "/" + name
  }

  /** `os.path.basename(path)`: the text after the last separator, or all of it. */
  function Basename(path: string): (b: string)
    ensures '/' !in b
  {
    match AfterLast(path, '/')
    case None => path
    case Some(tail) => tail
  }

  /** `str(uuid.uuid4())[:8]`: the first eight characters, or all of a shorter text. */
  function ShortId(uuid: string): (id: string)
    ensures |id| == if |uuid| < 8 then |uuid| else 8
    ensures id == uuid[..|id|]
  {
    if |uuid| <= 8 then uuid else uuid[..8]
  }

  function UploadName(id: string, secureName: string): string {
    "upload_" + id + "_" + secureName
  }

  function ConvertedName(id: string): string {
    "conv_" + id + ".mp4"
  }

  function OutputName(id: string): string {
    "processed_" + id + ".mp4"
  }

  function InputPath(id: string, secureName: string): string {
    Join(UploadFolder, UploadName(id, secureName))
  }

  function ConvertedPath(id: string): string {
    Join(UploadFolder, ConvertedName(id))
  }

  function OutputPath(id: string): string {
    Join(OutputFolder, OutputName(id))
  }

  /** Every file a request with this identifier and sanitised name may write. */
  function Artifacts(id: string, secureName: string): set<string> {
    {InputPath(id, secureName), ConvertedPath(id), OutputPath(id)}
  }

  /** The three artifacts of one request are pairwise distinct, whatever the identifier and name. */
  lemma ArtifactsDistinct(id: string, secureName: string)
    ensures InputPath(id, secureName) != ConvertedPath(id)
    ensures InputPath(id, secureName) != OutputPath(id)
    ensures ConvertedPath(id) != OutputPath(id)
    ensures |Artifacts(id, secureName)| == 3
  {
    assert InputPath(id, secureName)[7] == 'u' && OutputPath(id)[7] == 'o' && ConvertedPath(id)[7] == 'u';
    assert InputPath(id, secureName)[15] == 'u' && ConvertedPath(id)[15] == 'c';
  }

  /**
   * Two requests whose identifiers differ (with the same length, as every
   * `uuid4` prefix has) share no artifact, whatever their file names.
   */
  lemma DistinctIdsDisjointArtifacts(id1: string, name1: string, id2: string, name2: string)
    requires |id1| == |id2| && id1 != id2
    ensures Artifacts(id1, name1) !! Artifacts(id2, name2)
  {
    var j :| 0 <= j < |id1| && id1[j] != id2[j];
    // Different folders or different prefixes.
    assert InputPath(id1, name1)[7] == 'u' && OutputPath(id2)[7] == 'o';
    assert OutputPath(id1)[7] == 'o' && InputPath(id2, name2)[7] == 'u' && ConvertedPath(id2)[7] == 'u';
    assert ConvertedPath(id1)[7] == 'u';
    assert InputPath(id1, name1)[15] == 'u' && ConvertedPath(id2)[15] == 'c';
    assert ConvertedPath(id1)[15] == 'c' && InputPath(id2, name2)[15] == 'u';
    // Same prefix: the identifiers sit at the same offset and differ at `j`.
    assert InputPath(id1, name1)[22 + j] == id1[j] && InputPath(id2, name2)[22 + j] == id2[j];
    assert ConvertedPath(id1)[20 + j] == id1[j] && ConvertedPath(id2)[20 + j] == id2[j];
    assert OutputPath(id1)[25 + j] == id1[j] && OutputPath(id2)[25 + j] == id2[j];
  }

  /** The annotated output's public name is `processed_<id>.mp4` when the identifier has no separator. */
  lemma OutputBasename(id: string)
    requires '/' !in id
    ensures Basename(OutputPath(id)) == OutputName(id)
  {
    var p := OutputPath(id);
    var b := Basename(p);
    var k := |p| - |OutputName(id)| - 1;
    assert p[k] == '/';
    assert p[k + 1..] == OutputName(id);
    assert '/' !in OutputName(id) by {
      assert OutputName(id) == "processed_" + id + ".mp4";
    }
  }
}
