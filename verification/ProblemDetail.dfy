/** Problem details and their form in Redis: `encode_problem`, `decode_problem` and
    `cache_ttl_sec` of nl-problem/src/module.cpp. */
module ProblemDetail {
  import opened Wrappers

  datatype Sample = Sample(id: int, input: string, output: string)

  datatype Detail = Detail(
    id: int, title: string, difficulty: string, description: string, timeLimit: int, memoryLimit: int,
    visible: int, createTime: string, problemType: string, judgeMode: string, samples: seq<Sample>)

  /** What encoding does to the two judging columns. */
  function Normal(d: Detail): Detail {
    d.(problemType := if d.problemType == "" then "STANDARD" else d.problemType,
       judgeMode := if d.judgeMode == "" then "EXACT" else d.judgeMode)
  }

  function NormalView(d: Option<Detail>): Option<Detail> { if d.None? then None else Some(Normal(d.value)) }

  // --------------------------------------------------------------------------- JSON

  /** The keys of the cached object and of one sample in it. */
  datatype Key = Id | Title | Difficulty | Description | TimeLimit | MemoryLimit | Visible | CreateTime
               | ProblemType | JudgeMode | Samples | Input | Output

  datatype Json = Number(n: int) | Str(s: string) | Object(fields: map<Key, Json>) | Array(items: seq<Json>) | Other

  function EncodeSample(s: Sample): Json { Object(map[Id := Number(s.id), Input := Str(s.input), Output := Str(s.output)]) }

  function EncodeSamples(ss: seq<Sample>): seq<Json> {
    if ss == [] then [] else [EncodeSample(ss[0])] + EncodeSamples(ss[1..])
  }

  function Fields(d: Detail): map<Key, Json> {
    map[Id := Number(d.id), Title := Str(d.title), Difficulty := Str(d.difficulty),
        Description := Str(d.description), TimeLimit := Number(d.timeLimit), MemoryLimit := Number(d.memoryLimit),
        Visible := Number(d.visible), CreateTime := Str(d.createTime),
        ProblemType := Str(OrDefault(d.problemType, "STANDARD")), JudgeMode := Str(OrDefault(d.judgeMode, "EXACT")),
        Samples := Array(EncodeSamples(d.samples))]
  }

  function OrDefault(s: string, fallback: string): string { if s == "" then fallback else s }

  function Encode(d: Detail): Json { Object(Fields(d)) }

  /** `j.value(key, fallback)`; a value of another kind throws, written `None`. */
  function NumberOr(j: map<Key, Json>, k: Key, fallback: int): Option<int> {
    if k !in j then Some(fallback) else if j[k].Number? then Some(j[k].n) else None
  }

  function StrOr(j: map<Key, Json>, k: Key, fallback: string): Option<string> {
    if k !in j then Some(fallback) else if j[k].Str? then Some(j[k].s) else None
  }

  function DecodeSample(j: Json): Option<Sample> {
    if !j.Object? then None
    else
      var id :- NumberOr(j.fields, Id, 0);
      var input :- StrOr(j.fields, Input, "");
      var output :- StrOr(j.fields, Output, "");
      Some(Sample(id, input, output))
  }

  function DecodeSamples(js: seq<Json>): Option<seq<Sample>> {
    if js == [] then Some([])
    else
      var one :- DecodeSample(js[0]);
      var rest :- DecodeSamples(js[1..]);
      Some([one] + rest)
  }

  function SamplesOf(j: map<Key, Json>): Option<seq<Sample>> {
    if Samples in j && j[Samples].Array? then DecodeSamples(j[Samples].items) else Some([])
  }

  function Decode(j: Json): Option<Detail> {
    if !j.Object? || Id !in j.fields then None
    else
      var f := j.fields;
      var title :- StrOr(f, Title, "");
      var difficulty :- StrOr(f, Difficulty, "");
      var description :- StrOr(f, Description, "");
      var timeLimit :- NumberOr(f, TimeLimit, 0);
      var memoryLimit :- NumberOr(f, MemoryLimit, 0);
      var visible :- NumberOr(f, Visible, 0);
      var createTime :- StrOr(f, CreateTime, "");
      var problemType :- StrOr(f, ProblemType, "STANDARD");
      var judgeMode :- StrOr(f, JudgeMode, "EXACT");
      var samples :- SamplesOf(f);
      Some(Detail(if f[Id].Number? then f[Id].n else 0, title, difficulty, description, timeLimit, memoryLimit,
                  visible, createTime, problemType, judgeMode, samples))
  }

  lemma SampleRoundTrip(s: Sample)
    ensures DecodeSample(EncodeSample(s)) == Some(s)
  {
  }

  lemma {:induction false} SamplesRoundTrip(ss: seq<Sample>)
    ensures DecodeSamples(EncodeSamples(ss)) == Some(ss)
  {
    hide EncodeSample, DecodeSample;
    if ss != [] {
      SamplesRoundTrip(ss[1..]);
      SampleRoundTrip(ss[0]);
      assert EncodeSamples(ss)[1..] == EncodeSamples(ss[1..]);
      assert [ss[0]] + ss[1..] == ss;
    }
  }

  lemma FieldsAre(d: Detail)
    ensures var f := Fields(d);
            f.Keys == {Id, Title, Difficulty, Description, TimeLimit, MemoryLimit, Visible, CreateTime, ProblemType, JudgeMode, Samples}
            && f[Id] == Number(d.id) && f[Title] == Str(d.title) && f[Difficulty] == Str(d.difficulty)
            && f[Description] == Str(d.description) && f[TimeLimit] == Number(d.timeLimit)
            && f[MemoryLimit] == Number(d.memoryLimit) && f[Visible] == Number(d.visible)
            && f[CreateTime] == Str(d.createTime) && f[ProblemType] == Str(Normal(d).problemType)
            && f[JudgeMode] == Str(Normal(d).judgeMode) && f[Samples] == Array(EncodeSamples(d.samples))
  {
    hide EncodeSamples;
  }

  lemma DecodeFields(d: Detail)
    ensures Decode(Object(Fields(d))) == Some(Normal(d))
  {
    hide Fields, EncodeSamples, DecodeSamples;
    FieldsAre(d);
    SamplesRoundTrip(d.samples);
  }

  /** Reading back what was cached gives the detail with the two defaults filled in, so
      exactly the details whose two columns are not empty come back as they were. */
  lemma CodecRoundTrip(d: Detail)
    ensures Decode(Encode(d)) == Some(Normal(d))
    ensures Decode(Encode(d)) == Some(d) <==> d.problemType != "" && d.judgeMode != ""
  {
    hide Decode, Fields;
    DecodeFields(d);
  }

  /** What is missing in an object comes out as its default; only the id must be there. */
  lemma DecodesDefaults(id: Json, f: map<Key, Json>)
    ensures Decode(Object(map[Id := id])) ==
              Some(Detail(if id.Number? then id.n else 0, "", "", "", 0, 0, 0, "", "STANDARD", "EXACT", []))
    ensures Id !in f ==> Decode(Object(f)) == None
    ensures DecodeSample(Object(map[])) == Some(Sample(0, "", ""))
  {
  }

  // ------------------------------------------------------------------------ lifetimes

  const NIL_TTL := 300
  const L1_TTL := 60

  /** `cache_ttl_sec`: spread so that entries do not expire together. */
  function CacheTtl(id: int): (ttl: int)
    requires id > 0
    ensures 1800 <= ttl <= 2400
  {
    1800 + id % 601
  }

  /** How long Redis keeps the answer for an id. */
  function Ttl(id: int, answer: Option<Detail>): (ttl: int)
    requires id > 0
  {
    if answer.None? then NIL_TTL else CacheTtl(id)
  }
}
