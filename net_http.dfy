/**
 * The parts of Go's `net/http` that the branch filter's handler touches:
 * the multi-valued `http.Header`, the `http.ResponseWriter` it writes its
 * answer to, and the `http.Request` whose body it reads and replaces.
 */
module NetHttp {
  import opened Results

  newtype byte = b: int | 0 <= b < 0x100

  const MethodPost: string := "POST"
  const StatusOK: int := 200
  const StatusInternalServerError: int := 500

  /** `http.Header`: each header name maps to its values, in order. */
  type Header = map<string, seq<string>>

  /** `Header.Values`: the values of `name`, none if it is absent. */
  function Values(h: Header, name: string): seq<string>
  {
    if name in h then h[name] else []
  }

  /** Two headers with the same names and the same values are the same header. */
  lemma HeaderExt(a: Header, b: Header)
    requires a.Keys == b.Keys
    requires forall name :: Values(a, name) == Values(b, name)
    ensures a == b
  {
    forall name | name in a ensures a[name] == b[name] {
      assert Values(a, name) == Values(b, name);
    }
  }

  /** `Header.Add`: appends one value to the values of `name`. */
  function Add(h: Header, name: string, value: string): (r: Header)
    ensures Values(r, name) == Values(h, name) + [value]
    ensures forall other :: other != name ==> Values(r, other) == Values(h, other)
    ensures r.Keys == h.Keys + {name}
  {
    h[name := Values(h, name) + [value]]
  }

  /** The values `vs` appended to `name` one `Add` at a time. */
  function AddValues(h: Header, name: string, vs: seq<string>): (r: Header)
    ensures Values(r, name) == Values(h, name) + vs
    ensures forall other :: other != name ==> Values(r, other) == Values(h, other)
    ensures r.Keys == if vs == [] then h.Keys else h.Keys + {name}
  {
    if vs == [] then h else h[name := Values(h, name) + vs]
  }

  /** One more `Add` extends the appended run by one value. */
  lemma AddValuesSnoc(h: Header, name: string, vs: seq<string>, v: string)
    ensures AddValues(h, name, vs + [v]) == Add(AddValues(h, name, vs), name, v)
  {
    if vs == [] {
      assert vs + [v] == [v];
    } else {
      assert Values(h, name) + vs + [v] == Values(h, name) + (vs + [v]);
    }
  }

  /**
   * Every value of `src` appended, in order, after the values `h` already
   * holds under the same name; a name of `src` without values adds nothing.
   */
  function Merge(h: Header, src: Header): (r: Header)
    ensures forall name :: Values(r, name) == Values(h, name) + Values(src, name)
    ensures forall name :: name in r <==> name in h || Values(src, name) != []
  {
    map name | name in h.Keys + src.Keys && (name in h || src[name] != []) ::
      Values(h, name) + Values(src, name)
  }

  /** The entries of `src` whose names are in `names`. */
  function Restrict(src: Header, names: set<string>): (r: Header)
    ensures forall name :: Values(r, name) == if name in names then Values(src, name) else []
  {
    map name | name in src && name in names :: src[name]
  }

  /** Merging no names changes nothing. */
  lemma MergeNothing(h: Header, src: Header)
    ensures Merge(h, Restrict(src, {})) == h
  {
    HeaderExt(Merge(h, Restrict(src, {})), h);
  }

  /** Merging the values of one more name is appending them to that name. */
  lemma MergeOneMore(h: Header, src: Header, done: set<string>, name: string)
    requires name in src && name !in done
    ensures Merge(h, Restrict(src, done + {name}))
         == AddValues(Merge(h, Restrict(src, done)), name, src[name])
  {
    var after := Merge(h, Restrict(src, done + {name}));
    var stepped := AddValues(Merge(h, Restrict(src, done)), name, src[name]);
    MergeOneMoreValues(h, src, done, name);
    MergeOneMoreNames(h, src, done, name);
    HeaderExt(after, stepped);
  }

  lemma MergeOneMoreValues(h: Header, src: Header, done: set<string>, name: string)
    requires name in src && name !in done
    ensures forall other ::
      Values(Merge(h, Restrict(src, done + {name})), other)
      == Values(AddValues(Merge(h, Restrict(src, done)), name, src[name]), other)
  {
  }

  lemma MergeOneMoreNames(h: Header, src: Header, done: set<string>, name: string)
    requires name in src && name !in done
    ensures Merge(h, Restrict(src, done + {name})).Keys
         == AddValues(Merge(h, Restrict(src, done)), name, src[name]).Keys
  {
    var after := Merge(h, Restrict(src, done + {name}));
    var stepped := AddValues(Merge(h, Restrict(src, done)), name, src[name]);
    forall other ensures other in after <==> other in stepped {
      if other == name {
        assert Values(Restrict(src, done + {name}), name) == src[name];
        assert Values(Restrict(src, done), name) == [];
      } else {
        assert Values(Restrict(src, done + {name}), other) == Values(Restrict(src, done), other);
      }
    }
  }

  /**
   * Copying every value of `src` into an empty header reproduces `src`,
   * except for names that carry no value.
   */
  lemma MergeIntoEmpty(src: Header)
    ensures forall name :: Values(Merge(map[], src), name) == Values(src, name)
    ensures Merge(map[], src).Keys == set name | name in src && src[name] != []
  {
    var r := Merge(map[], src);
    forall name ensures Values(r, name) == Values(src, name) {
      assert Values(map[], name) == [];
    }
  }

  /** A response as the handler has shaped it so far. */
  datatype Response = Response(status: Option<int>, header: Header, body: seq<byte>)
  {
    /** `ResponseWriter.WriteHeader`: the first status written wins. */
    function WriteHeader(code: int): (r: Response)
      ensures r.status.Some?
      ensures status.Some? ==> r == this
      ensures status.None? ==> r.status == Some(code)
      ensures r.header == header && r.body == body
    {
      if status.Some? then this else this.(status := Some(code))
    }

    /** `ResponseWriter.Write`: a write before any status implies 200. */
    function Write(data: seq<byte>): (r: Response)
      ensures r.status == if status.Some? then status else Some(StatusOK)
      ensures r.header == header
      ensures r.body == body + data
    {
      this.WriteHeader(StatusOK).(body := body + data)
    }

    /** `ResponseWriter.Header().Add`. */
    function AddHeader(name: string, value: string): (r: Response)
      ensures Values(r.header, name) == Values(header, name) + [value]
      ensures forall other :: other != name ==> Values(r.header, other) == Values(header, other)
      ensures r.status == status && r.body == body
    {
      this.(header := Add(header, name, value))
    }

    /** Every value of `src` added to the response headers. */
    function AddAll(src: Header): (r: Response)
      ensures forall name :: Values(r.header, name) == Values(header, name) + Values(src, name)
      ensures r.status == status && r.body == body
    {
      this.(header := Merge(header, src))
    }
  }

  /** A response nothing has been written to. */
  const Untouched: Response := Response(None, map[], [])

  /** `http.ResponseWriter`, as the handler sees it. */
  class ResponseWriter {
    var status: Option<int>
    var header: Header
    var body: seq<byte>

    function State(): Response
      reads this
    {
      Response(status, header, body)
    }

    constructor ()
      ensures State() == Untouched
    {
      status, header, body := None, map[], [];
    }

    method WriteHeader(code: int)
      modifies this
      ensures State() == old(State()).WriteHeader(code)
    {
      if status.None? {
        status := Some(code);
      }
    }

    method Write(data: seq<byte>)
      modifies this
      ensures State() == old(State()).Write(data)
    {
      if status.None? {
        status := Some(StatusOK);
      }
      body := body + data;
    }

    method AddHeader(name: string, value: string)
      modifies this
      ensures State() == old(State()).AddHeader(name, value)
    {
      header := Add(header, name, value);
    }
  }

  /**
   * A request body stream: the bytes it yields, and whether reading ends in
   * an error instead of end-of-file after them.
   */
  datatype Body = Body(data: seq<byte>, readError: bool)

  /** `http.Request`: the handler reassigns only its body. */
  class Request {
    const httpMethod: string
    const header: Header
    var body: Body

    constructor (httpMethod: string, header: Header, body: Body)
      ensures this.httpMethod == httpMethod && this.header == header && this.body == body
    {
      this.httpMethod, this.header, this.body := httpMethod, header, body;
    }
  }
}
