/** The handle guards and the uniform-location cache of `sogl::Shader`
    (src/Shader.cpp). The OpenGL driver is replaced by its observable part:
    the names it hands out, the statuses it reports and the lists of names it
    was asked to delete. */
module Shaders {
  import opened GlObjects

  /** `GL_FALSE`. */
  const GL_FALSE: int := 0

  /** The shader stages the compiled-shader constructors exist for. */
  datatype Stage = Vertex | Geometry | Fragment

  /** The deletions requested from the driver, in order. */
  class Driver {
    var deletedShaders: seq<Handle>
    var deletedPrograms: seq<Handle>

    constructor ()
      ensures deletedShaders == [] && deletedPrograms == []
    {
      deletedShaders := [];
      deletedPrograms := [];
    }
  }

  /** `compile`: a shader compiled exactly when the driver's compile status is
      not `GL_FALSE`. */
  function Compiled(status: int): bool
  {
    status != GL_FALSE
  }

  /** `CompiledShaderObject<stage>`: owns the name the driver created for it;
      if compilation fails the name is deleted, but the object keeps it. */
  class CompiledShaderObject {
    const stage: Stage
    var handle: Handle

    /** The constructor for `stage`, given the name `glCreateShader` returned
        and the compile status the driver reports. */
    constructor (stage: Stage, created: Handle, status: int, driver: Driver)
      modifies driver`deletedShaders
      ensures this.stage == stage && handle == created
      ensures driver.deletedShaders == old(driver.deletedShaders) + (if !Compiled(status) && created != 0 then [created] else [])
    {
      this.stage := stage;
      handle := created;
      new;
      if !Compiled(status) {
        Destroy(driver);
      }
    }

    /** `destroy`: deletes a non-zero name and leaves `handle` as it was. */
    method Destroy(driver: Driver)
      modifies driver`deletedShaders
      ensures driver.deletedShaders == old(driver.deletedShaders) + (if handle != 0 then [handle] else [])
    {
      if handle != 0 {
        driver.deletedShaders := driver.deletedShaders + [handle];
      }
    }
  }

  /** `Shader::Program`. */
  class Program {
    var handle: Handle

    constructor ()
      ensures handle == 0
    {
      handle := 0;
    }

    /** `create`: releases a name already held, then holds the new one. */
    method Create(driver: Driver, created: Handle)
      modifies this`handle, driver`deletedPrograms
      ensures handle == created
      ensures Held() <==> created != 0
      ensures driver.deletedPrograms == old(driver.deletedPrograms) + (if old(handle) != 0 then [old(handle)] else [])
    {
      if handle != 0 {
        Destroy(driver);
      }
      handle := created;
    }

    /** `destroy`: deletes a non-zero name and leaves `handle` as it was, so a
        destroyed program still converts to true. */
    method Destroy(driver: Driver)
      modifies driver`deletedPrograms
      ensures Held() == old(Held())
      ensures driver.deletedPrograms == old(driver.deletedPrograms) + (if handle != 0 then [handle] else [])
    {
      if handle != 0 {
        driver.deletedPrograms := driver.deletedPrograms + [handle];
      }
    }

    /** `operator bool`: whether a name is held. */
    function Held(): bool
      reads this
    {
      handle != 0
    }
  }

  /** How `linkAndValidate` ends: linked, or the check that failed first. */
  datatype LinkOutcome = Linked | LinkFailed | ValidationFailed

  /** `linkAndValidate`, given the link and validate statuses the driver reports
      (both requests are issued before either status is read). */
  function LinkAndValidate(linkStatus: int, validateStatus: int): (r: LinkOutcome)
    ensures r == Linked <==> linkStatus != GL_FALSE && validateStatus != GL_FALSE
  {
    if linkStatus == GL_FALSE then LinkFailed
    else if validateStatus == GL_FALSE then ValidationFailed
    else Linked
  }

  /** The link status is looked at first: a failed link is reported as such
      whatever validation said; validation decides only after a link succeeded;
      the call returns true exactly when both statuses are not `GL_FALSE`. */
  lemma LinkAndValidateOrder(linkStatus: int, validateStatus: int)
    ensures LinkAndValidate(linkStatus, validateStatus) == LinkFailed <==> linkStatus == GL_FALSE
    ensures LinkAndValidate(linkStatus, validateStatus) == ValidationFailed <==>
      linkStatus != GL_FALSE && validateStatus == GL_FALSE
    ensures LinkAndValidate(linkStatus, validateStatus) == Linked <==>
      linkStatus != GL_FALSE && validateStatus != GL_FALSE
  {
  }

  /** `sogl::Shader`: a program and the memo of uniform locations. */
  class Shader {
    const program: Program
    /** `m_uniforms_location`. */
    var uniforms: map<string, int>
    /** The names the driver was asked to locate, in order. */
    var queries: seq<string>
    /** What `glGetUniformLocation` reports for a name in the linked program. */
    const locate: string -> int

    /** The memo holds what the driver reported, and exactly the names it was
        asked about, each once. */
    ghost predicate Valid()
      reads this
    {
      && (forall n :: n in uniforms ==> uniforms[n] == locate(n))
      && (forall n :: n in queries <==> n in uniforms)
      && (forall i, j :: 0 <= i < j < |queries| ==> queries[i] != queries[j])
    }

    constructor (locate: string -> int)
      ensures Valid()
      ensures fresh(program) && program.handle == 0
      ensures uniforms == map[] && queries == [] && this.locate == locate
    {
      program := new Program();
      uniforms := map[];
      queries := [];
      this.locate := locate;
    }

    /** `getUniformLocation`: asks the driver only for a name not yet in the
        memo, and stores the answer. The result is always what the driver
        reports for that name; the memo only grows. */
    method GetUniformLocation(name: string) returns (location: int)
      requires Valid()
      modifies this`uniforms, this`queries
      ensures Valid()
      ensures location == locate(name)
      ensures name in old(uniforms) ==> location == old(uniforms)[name] && uniforms == old(uniforms) && queries == old(queries)
      ensures name !in old(uniforms) ==> uniforms == old(uniforms)[name := location] && queries == old(queries) + [name]
      ensures forall n :: n in old(uniforms) ==> n in uniforms && uniforms[n] == old(uniforms)[n]
    {
      if name !in uniforms {
        queries := queries + [name];
        uniforms := uniforms[name := locate(name)];
      }
      location := uniforms[name];
    }

    /** Asking twice for one name gives the same location, with at most one
        query to the driver. */
    method GetUniformLocationTwice(name: string) returns (first: int, second: int)
      requires Valid()
      modifies this`uniforms, this`queries
      ensures Valid()
      ensures first == second
      ensures |queries| <= |old(queries)| + 1
    {
      first := GetUniformLocation(name);
      second := GetUniformLocation(name);
    }

    /** `~Shader`: destroys the program if it holds a name. */
    method Dispose(driver: Driver)
      modifies driver`deletedPrograms
      ensures driver.deletedPrograms == old(driver.deletedPrograms) + (if program.handle != 0 then [program.handle] else [])
    {
      if program.Held() {
        program.Destroy(driver);
      }
    }

    /** The destructor's guard does not protect a program that was destroyed
        before: `destroy` keeps the name, so the name is deleted a second time. */
    method DisposeAfterDestroy(driver: Driver)
      requires program.Held()
      modifies driver`deletedPrograms
      ensures driver.deletedPrograms == old(driver.deletedPrograms) + [program.handle, program.handle]
    {
      program.Destroy(driver);
      Dispose(driver);
    }
  }
}
