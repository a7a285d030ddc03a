/** The rows the core reads and writes, as records. Every table is a map from id
    to row; the fields are the ones the services use. */
module Entities {
  import opened Common
  import opened Json

  /** `UserRole` */
  datatype UserRole = SuperAdmin | Admin | Client | Market {
    function Name(): string {
      match this
      case SuperAdmin => "superadmin"
      case Admin => "admin"
      case Client => "client"
      case Market => "market"
    }
  }

  /** `LanguageType` */
  datatype Language = UZ | RU {
    function Code(): string {
      match this
      case UZ => "uz"
      case RU => "ru"
    }
  }

  /** `ElonStatus` */
  datatype ElonStatus = Negotiation | Agreed {
    function Name(): string {
      match this
      case Negotiation => "negotiation"
      case Agreed => "agreed"
    }
  }

  /** `CommentScope` */
  datatype CommentScope = ElonScope | ProductScope {
    function Name(): string {
      match this
      case ElonScope => "elon"
      case ProductScope => "product"
    }
  }

  datatype ClientAccount = ClientAccount(
    id: string,
    fullName: Option<string>,
    username: Option<string>,
    password: string,
    phoneNumber: Option<string>,
    photoPath: Option<string>,
    language: Language,
    role: UserRole,
    isActive: bool)

  datatype MarketAccount = MarketAccount(
    id: string,
    name: Option<string>,
    phoneNumber: string,
    username: Option<string>,
    password: string,
    photoPath: Option<string>,
    adressId: Option<string>,
    language: Language,
    role: UserRole,
    isActive: bool)

  datatype AdminAccount = AdminAccount(
    id: string,
    username: string,
    phoneNumber: string,
    email: string,
    password: string,
    role: UserRole,
    isActive: bool)

  datatype Category = Category(
    id: string,
    nameUz: string,
    nameRu: Option<string>,
    photoPath: Option<string>,
    iconPath: Option<string>)

  datatype SupCategory = SupCategory(
    id: string,
    nameUz: string,
    nameRu: Option<string>,
    categoryId: string,
    photoPath: Option<string>,
    iconPath: Option<string>)

  datatype Elon = Elon(
    id: string,
    text: string,
    adressname: Option<string>,
    categoryId: string,
    supCategoryId: Option<string>,
    clientId: string,
    price: Option<string>,
    groupId: Option<string>,
    commentId: Option<string>,
    status: ElonStatus,
    answerCount: int)

  datatype Product = Product(
    id: string,
    name: string,
    categoryId: string,
    supCategoryId: Option<string>,
    marketId: string,
    price: string,
    amount: Option<int>,
    description: Option<string>,
    commentId: Option<string>,
    isActive: bool)

  /** The discussion thread of exactly one elon or one product. */
  datatype Comment = Comment(id: string, scope: CommentScope, elonId: Option<string>, productId: Option<string>) {
    /** The table's CHECK constraint: an elon thread points at an elon and at no
        product, a product thread the other way round. */
    predicate Checked() {
      match scope
      case ElonScope => elonId.Some? && productId.None?
      case ProductScope => productId.Some? && elonId.None?
    }
  }

  /** The comment table after `if (commentId) commentRepo.delete(commentId)`. */
  function WithoutThread(comments: map<string, Comment>, commentId: Option<string>): map<string, Comment> {
    if Truthy(commentId) then comments - {commentId.value} else comments
  }

  datatype Photo = Photo(id: string, path: string, elonId: Option<string>, productId: Option<string>)

  /** Coordinates are double-precision numbers the core only stores and returns. */
  datatype Adress = Adress(id: string, name: string, long: Option<real>, lat: Option<real>)

  /** The row of a client as it appears in a response, password included. */
  function ClientJson(c: ClientAccount): Json {
    JObj(map[
      "id" := JStr(c.id),
      "fullName" := OptStr(c.fullName),
      "username" := OptStr(c.username),
      "password" := JStr(c.password),
      "phoneNumber" := OptStr(c.phoneNumber),
      "photoPath" := OptStr(c.photoPath),
      "language" := JStr(c.language.Code()),
      "role" := JStr(c.role.Name()),
      "isActive" := JBool(c.isActive)])
  }

  function MarketJson(m: MarketAccount): Json {
    JObj(map[
      "id" := JStr(m.id),
      "name" := OptStr(m.name),
      "phoneNumber" := JStr(m.phoneNumber),
      "username" := OptStr(m.username),
      "password" := JStr(m.password),
      "photoPath" := OptStr(m.photoPath),
      "adressId" := OptStr(m.adressId),
      "language" := JStr(m.language.Code()),
      "role" := JStr(m.role.Name()),
      "isActive" := JBool(m.isActive)])
  }
}
