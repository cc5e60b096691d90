/** The credential record (`userSchema`), its pre-save hashing hook,
    `comparePassword`, and the store of records keyed by the unique email. */
module UserModel {
  import opened Wrappers
  import opened Crypto

  /** The bcrypt cost factor the pre-save hook passes. */
  const SaltRounds: nat := 10

  /** One stored user: the store-assigned `_id` and the four schema paths
      (`type` is a Dafny keyword, so that path is the field `userType`).
      `userType` is any string: the schema enumerates no roles. */
  datatype User = User(id: string, nome: string, email: string, senha: string, userType: string)

  /** Mongoose's `required` check on a String path: present and not empty. */
  predicate Present(s: string)
  {
    s != ""
  }

  /** The four `required: true` paths of the schema. */
  predicate HasRequiredFields(u: User)
  {
    Present(u.nome) && Present(u.email) && Present(u.senha) && Present(u.userType)
  }

  /** `user._doc`: the stored document as a JSON object. */
  function Doc(u: User): (d: Claims)
    ensures d.Keys == {"_id", "nome", "email", "senha", "type"}
    ensures d["_id"] == u.id && d["nome"] == u.nome && d["email"] == u.email
    ensures d["senha"] == u.senha && d["type"] == u.userType
  {
    map["_id" := u.id, "nome" := u.nome, "email" := u.email, "senha" := u.senha, "type" := u.userType]
  }

  /** The unique index on `email`: the record stored under an email carries that
      email, so no two records share one. */
  ghost predicate UniqueEmails(users: map<string, User>)
  {
    forall e :: e in users ==> users[e].email == e
  }

  /** The effect of the `pre("save")` hook on a record: `senha` replaced by its
      bcrypt hash when it was modified, the record untouched otherwise. */
  function PreSaved(u: User, senhaModified: bool, b: Bcrypt, salt: string): (v: User)
    ensures v.id == u.id && v.nome == u.nome && v.email == u.email && v.userType == u.userType
    ensures v.senha == if senhaModified then b.hash(u.senha, SaltRounds, salt) else u.senha
  {
    if !senhaModified then u else u.(senha := b.hash(u.senha, SaltRounds, salt))
  }

  /** `comparePassword(senha)`: bcrypt's compare of the plaintext (first) against the stored hash (second). */
  function ComparePassword(b: Bcrypt, u: User, senha: string): (r: bool)
    ensures Matches(b) && (exists rounds, salt :: u.senha == b.hash(senha, rounds, salt)) ==> r
  {
    b.compare(senha, u.senha)
  }

  /** Saving an unmodified record twice changes nothing: the hook never hashes a hash. */
  lemma PreSavedUnmodifiedIdempotent(u: User, b: Bcrypt, salt: string, salt': string)
    ensures PreSaved(PreSaved(u, false, b, salt), false, b, salt') == u
  {
  }

  /** After the hook hashed a modified `senha`, comparing the plaintext that was set succeeds. */
  lemma ComparePasswordAfterPreSave(u: User, b: Bcrypt, salt: string)
    requires Matches(b)
    ensures ComparePassword(b, PreSaved(u, true, b, salt), u.senha)
  {
  }

  /** Why a failed save was refused: a missing required path, or a second record with the same email. */
  datatype SaveError = ValidationError | DuplicateKey

  /** Saving a new document: Mongoose validates first, then runs the hook (a new
      document counts every set path as modified, so `senha` is always hashed),
      and the unique index refuses an email already stored. */
  function Create(users: map<string, User>, u: User, b: Bcrypt, salt: string): (r: Result<map<string, User>, SaveError>)
    ensures !HasRequiredFields(u) <==> r == Failure(ValidationError)
    ensures r == Failure(DuplicateKey) <==> HasRequiredFields(u) && u.email in users
    ensures r.Success? ==>
              && r.value.Keys == users.Keys + {u.email}
              && u.email !in users
              && r.value[u.email] == u.(senha := b.hash(u.senha, SaltRounds, salt))
              && forall e :: e in users ==> r.value[e] == users[e]
  {
    if !HasRequiredFields(u) then Failure(ValidationError)
    else if u.email in users then Failure(DuplicateKey)
    else Success(users[u.email := PreSaved(u, true, b, salt)])
  }

  /** Creating a record keeps emails unique. */
  lemma CreateKeepsEmailsUnique(users: map<string, User>, u: User, b: Bcrypt, salt: string)
    requires UniqueEmails(users)
    requires Create(users, u, b, salt).Success?
    ensures UniqueEmails(Create(users, u, b, salt).value)
  {
  }

  /** The plaintext given at creation is never what is stored, only its hash;
      and that plaintext then passes `comparePassword`. */
  lemma CreatedPasswordMatches(users: map<string, User>, u: User, b: Bcrypt, salt: string)
    requires Matches(b)
    requires Create(users, u, b, salt).Success?
    ensures var stored := Create(users, u, b, salt).value[u.email];
      stored.senha == b.hash(u.senha, SaltRounds, salt) && ComparePassword(b, stored, u.senha)
  {
  }

  /** A Mongoose document of this schema: its paths are updated in place and it
      tracks whether `senha` was modified since it was last saved. */
  class UserDocument {
    var id: string
    var nome: string
    var email: string
    var senha: string
    var userType: string
    var senhaModified: bool

    /** The record the document currently holds. */
    function Record(): User
      reads this
    {
      User(id, nome, email, senha, userType)
    }

    /** `new User({...})`: a new document, with every path it was given counted as modified. */
    constructor New(u: User)
      ensures Record() == u && senhaModified
    {
      id, nome, email, senha, userType := u.id, u.nome, u.email, u.senha, u.userType;
      senhaModified := true;
    }

    /** The `pre("save")` hook: return at once when `senha` was not modified,
        otherwise replace it by `bcrypt.hash(senha, 10)`. */
    method PreSave(b: Bcrypt, salt: string)
      modifies this`senha
      ensures Record() == PreSaved(old(Record()), senhaModified, b, salt)
      ensures !senhaModified ==> unchanged(this)
    {
      if !senhaModified {
        return;
      }
      senha := b.hash(senha, SaltRounds, salt);
    }
  }

  /** `new User(u).save()` step by step: validation, then the document's
      pre-save hook, then the unique index; the outcome is the one `Create` specifies. */
  method SaveNew(users: map<string, User>, u: User, b: Bcrypt, salt: string) returns (r: Result<map<string, User>, SaveError>)
    ensures r == Create(users, u, b, salt)
  {
    if !HasRequiredFields(u) {
      return Failure(ValidationError);
    }
    var doc := new UserDocument.New(u);
    doc.PreSave(b, salt);
    if u.email in users {
      return Failure(DuplicateKey);
    }
    r := Success(users[u.email := doc.Record()]);
  }
}
